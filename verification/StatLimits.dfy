/** Further guarantees of the statistics: how the two windows fit, what justifies a deletion, where the
    events go, and how large an hour hash can get. */
module StatLimits {
  import opened Wrappers
  import opened Strings
  import opened Redis
  import opened StatKeys
  import opened Clock
  import opened Decimal
  import opened Sorting
  import opened Sums
  import opened Recording
  import opened StatSystem
  import opened StatProofs
  import opened StatReads
  import opened StatTheorems

  // ------------------------------------------------------------ the two windows

  lemma OrderedTail(all: seq<Event>, tail: seq<Event>)
    requires Ordered(all) && EndsWith(all, tail)
    ensures Ordered(tail)
  {}

  lemma {:induction false} OrderedAbout(log: seq<Event>, sub: Subject)
    requires Ordered(log)
    ensures Ordered(About(log, sub))
  {
    if log != [] {
      var before, e := log[..|log| - 1], log[|log| - 1];
      OrderedAbout(before, sub);
      forall i | 0 <= i < |About(before, sub)| ensures About(before, sub)[i].now <= e.now {
        AboutMembers(before, sub, About(before, sub)[i]);
      }
    }
  }

  lemma SightShows(slot: Option<Slot>, col: Column, kept: seq<Event>, e: Event, now: Time, at: Time)
    requires SightOk(slot, col, kept, now) && Ordered(kept) && e in kept
    requires at <= now && HourBucket(e.now) >= FirstHour(now)
    ensures Member(e, col) in Ascending(RangeFrom(slot, FirstSecond(at)))
  {
    LastSeenLatest(kept, col, e);
    HourWindowInside(e.now, now);
    ClockMonotone(at, now);
    AscendingMembers(RangeFrom(slot, FirstSecond(at)), Member(e, col));
  }

  // A kept event of the current hour window is shown in full.
  lemma KeptIsShown(w: World, cfg: Config, actions: seq<Action>, sub: Subject, e: Event, at: Time)
    requires RunsIn(w, actions) && sub in w && at <= Run(cfg, actions).now && Ordered(Run(cfg, actions).log)
    requires e in Of(Run(cfg, actions).kept, sub) && HourBucket(e.now) >= FirstHour(Run(cfg, actions).now)
    ensures var s := Run(cfg, actions);
      var report := ReadSubject(s.db, sub, at);
      && e.ip in report.ips && e.ua in report.uas
      && (sub.Token? ==> e.path in report.paths && sub.name in ListedTokens(s.db, at))
  {
    hide Run, Name, HoursOk, SightOk, MainOk, About, RunsIn, Ordered, ListedTokens, Ascending, Histogram;
    var s, kept := Run(cfg, actions), Of(Run(cfg, actions).kept, sub);
    SubjectHolds(w, cfg, actions, sub);
    OrderedAbout(s.log, sub);
    OrderedTail(About(s.log, sub), kept);
    SightShows(Fetch(s.db, Name(Ips(sub))), ByIp, kept, e, s.now, at);
    SightShows(Fetch(s.db, Name(Uas(sub))), ByUa, kept, e, s.now, at);
    if sub.Token? {
      SightShows(Fetch(s.db, Name(TokenPaths(sub.name))), ByPath, kept, e, s.now, at);
      LastSeenLatest(s.log, ByToken, e);
      HourWindowInside(e.now, s.now);
      TokenListing(w, cfg, actions, sub.name, at);
    }
  }

  /** The hour window lies inside the second window: whatever is counted is also shown. With events
      written in timestamp order, the address, user agent and path of every recorded event of the window
      are reported, and its token is listed; for a path, if none of its events was lost. */
  lemma CountedIsShown(w: World, cfg: Config, actions: seq<Action>, sub: Subject, e: Event, at: Time)
    requires RunsIn(w, actions) && sub in w && at <= Run(cfg, actions).now && Ordered(Run(cfg, actions).log)
    requires sub.Path? ==> PatientConfig(cfg) && Quiet(cfg, actions)
    requires e in Run(cfg, actions).log && Concerns(e, sub) && HourBucket(e.now) >= FirstHour(Run(cfg, actions).now)
    ensures var s := Run(cfg, actions);
      var report := ReadSubject(s.db, sub, at);
      && e.ip in report.ips && e.ua in report.uas
      && (sub.Token? ==> e.path in report.paths && sub.name in ListedTokens(s.db, at))
  {
    hide Run, Quiet, RunsIn, Ordered, ReadSubject;
    WindowEventIsKept(w, cfg, actions, sub, e);
    KeptIsShown(w, cfg, actions, sub, e, at);
  }

  /** So, under any cleaner and after any race, a positive 48-hour count in the current hour never comes
      with an empty address or user-agent list. */
  lemma PositiveCountIsShown(w: World, cfg: Config, actions: seq<Action>, sub: Subject, at: Time)
    requires RunsIn(w, actions) && sub in w && at <= Run(cfg, actions).now && Ordered(Run(cfg, actions).log)
    requires HourBucket(at) == HourBucket(Run(cfg, actions).now)
    requires ReadSubject(Run(cfg, actions).db, sub, at).count48h > 0
    ensures var s := Run(cfg, actions);
      var report := ReadSubject(s.db, sub, at);
      && report.ips != [] && report.uas != []
      && (sub.Token? ==> report.paths != [] && sub.name in ListedTokens(s.db, at))
  {
    hide Run, ReadSubject, Between, Ordered, RunsIn, ListedTokens, SumSeq, Tally;
    var s, lo := Run(cfg, actions), FirstHour(at);
    var hourly, kept := ReadSubject(s.db, sub, at).hourly, Of(s.kept, sub);
    ReportShape(s.db, sub, at);
    forall i | 0 <= i < WINDOW_HOURS ensures hourly[i] <= Tally(kept, lo + i) {
      SlotIsBucket(w, cfg, actions, sub, at, i);
    }
    SlotsAddUp(hourly, kept, lo);
    BetweenHasEvent(kept, lo, lo + WINDOW_HOURS);
    var e :| e in kept && HourIn(e, lo, lo + WINDOW_HOURS);
    KeptIsShown(w, cfg, actions, sub, e, at);
  }

  // Every member a range read returns belongs to a kept event inside the second window.
  lemma ShownInRange(slot: Option<Slot>, col: Column, kept: seq<Event>, now: Time, since: int, m: string)
    requires SightOk(slot, col, kept, now) && m in Ascending(RangeFrom(slot, since))
    ensures exists e :: e in kept && Member(e, col) == m && Unix(e.now) >= since
  {
    hide Ascending;
    AscendingMembers(RangeFrom(slot, since), m);
    LastSeenIsOf(kept, col, m);
  }

  // The list that a report shows for a column.
  function Shown(report: Report, col: Column): seq<string>
    requires !col.ByToken?
  {
    match col
    case ByIp => report.ips
    case ByUa => report.uas
    case ByPath => report.paths
  }

  /** Conversely nothing stale is shown: a reported address, user agent or token path belongs to a
      recorded event of the subject no older than 172800 seconds, and a listed token's last written event
      lies at most one bucket outside the hour window. */
  lemma ShownWasSeen(w: World, cfg: Config, actions: seq<Action>, sub: Subject, col: Column, m: string, at: Time)
    requires RunsIn(w, actions) && sub in w && !col.ByToken?
    requires m in Shown(ReadSubject(Run(cfg, actions).db, sub, at), col)
    ensures var s := Run(cfg, actions);
      exists e :: e in s.log && Concerns(e, sub) && Member(e, col) == m && Unix(e.now) >= FirstSecond(at)
  {
    hide Run, Name, HoursOk, SightOk, MainOk, About, RunsIn, Ascending, Histogram, Unix;
    var s, kept := Run(cfg, actions), Of(Run(cfg, actions).kept, sub);
    SubjectHolds(w, cfg, actions, sub);
    var key := ColumnKey(sub, col);
    if kept == [] {
      NothingShown(FirstSecond(at));
    }
    ShownInRange(Fetch(s.db, Name(key)), col, kept, s.now, FirstSecond(at), m);
    var e :| e in kept && Member(e, col) == m && Unix(e.now) >= FirstSecond(at);
    assert e in s.log && Concerns(e, sub);
  }

  function ColumnKey(sub: Subject, col: Column): StatKey
    requires !col.ByToken?
  {
    match col
    case ByIp => Ips(sub)
    case ByUa => Uas(sub)
    case ByPath => TokenPaths(sub.name)
  }

  /** Out of order, what counts is the event written last: a member is reported when the kept event written
      last for it is inside the second window, and not reported when that event is before it. */
  lemma ShownByLastWritten(w: World, cfg: Config, actions: seq<Action>, sub: Subject, col: Column, m: string, at: Time)
    requires RunsIn(w, actions) && sub in w && at <= Run(cfg, actions).now
    requires !col.ByToken? && (col.ByPath? ==> sub.Token?)
    ensures var s := Run(cfg, actions);
      var last := LastSeen(Of(s.kept, sub), col, m);
      && (last.Some? && last.value > FirstSecond(s.now) ==> m in Shown(ReadSubject(s.db, sub, at), col))
      && (m in Shown(ReadSubject(s.db, sub, at), col) ==> last.Some? && last.value >= FirstSecond(at))
  {
    hide Run, Name, HoursOk, MainOk, LinkOk, About, RunsIn, Ascending, Histogram, Unix;
    var s, key := Run(cfg, actions), Name(ColumnKey(sub, col));
    SubjectHolds(w, cfg, actions, sub);
    ClockMonotone(at, s.now);
    AscendingMembers(RangeFrom(Fetch(s.db, key), FirstSecond(at)), m);
  }

  lemma NothingShown(since: int)
    ensures forall m :: m !in Ascending(RangeFrom(None, since))
  {
    forall m ensures m !in Ascending(RangeFrom(None, since)) {
      AscendingMembers(RangeFrom(None, since), m);
    }
  }

  lemma ListedTokenIsRecent(w: World, cfg: Config, actions: seq<Action>, t: string, at: Time)
    requires RunsIn(w, actions) && t in ListedTokens(Run(cfg, actions).db, at) && at <= Run(cfg, actions).now
    ensures exists e :: e in Run(cfg, actions).log && e.token == t && HourBucket(e.now) >= FirstHour(at) - 1
  {
    hide Run, ListedTokens;
    var s := Run(cfg, actions);
    ListedTokensAreKnown(w, cfg, actions, t, at);
    TokenListing(w, cfg, actions, t, at);
    var e :| e in s.log && e.token == t && LastSeen(s.log, ByToken, t) == Some(Unix(e.now));
    SecondWindowReach(e.now, at);
  }

  // ------------------------------------------------------------ deletions

  /** The cleaner looks closer at a key only when it is the counter hash of a recorded path and fewer
      than the minimum count of events have been recorded since the path's keys last came to be. */
  lemma LowCountMeansFewEvents(w: World, cfg: Config, actions: seq<Action>, key: string)
    requires RunsIn(w, actions) && Run(cfg, actions).cleaner.Idle?
    requires Step(cfg, Run(cfg, actions), ReadCount(key)).cleaner.Counted?
    ensures var s, path := Run(cfg, actions), Step(cfg, Run(cfg, actions), ReadCount(key)).cleaner.path;
      && Path(path) in w && Listable(path) && key == Name(Main(Path(path)))
      && 0 < |Of(s.kept, Path(path))| < cfg.minCount
      && forall e :: e in Of(s.kept, Path(path)) ==> e in s.log && e.path == path
  {
    hide Run, HoursOk, SightOk, IndexOk, KeysOk, EventsOk, IsMainKey, Name, Steady;
    var s := Run(cfg, actions);
    RunKeeps(w, cfg, actions);
    assert key in s.db;
    MainKeyInWorld(w, s.db, key);
    var sub := Path(TrimPrefix(key, "stats::"));
    SubjectHolds(w, cfg, actions, sub);
    SteadyCount(PatientConfig(cfg), s, sub);
  }

  lemma VerdictOnSlot(slot: Option<Slot>, kept: seq<Event>, expiry: int, now: Time, inactive: int, e: Event)
    requires HoursOk(slot, kept, expiry, now) && Abandoned(Fields(slot), now, inactive)
    requires e in kept && HourBucket(e.now) >= FirstHour(now)
    ensures e.now < now - inactive + HOUR && inactive < TTL - 1
  {
    hide ParseInt, FormatInt, Tally;
    var h := HourBucket(e.now);
    TallyCounts(kept, e);
    assert Bucket(slot, h) >= 1;
    ParseInverse(h);
    LaterThanLatest(h, LatestHour(Fields(slot)), now, inactive, e);
    if inactive >= TTL - 1 {
      InactiveIsOutside(h, now, inactive);
    }
  }

  lemma LaterThanLatest(h: int, latest: int, now: Time, inactive: int, e: Event)
    requires h <= latest && now - latest * HOUR > inactive && h == HourBucket(e.now)
    ensures now - h * HOUR > inactive && e.now < now - inactive + HOUR
  {}

  /** A path is only marked for deletion when every event kept for it in the current hour window
      happened more than `inactive` minus one hour ago; with a patient cleaner there is none. */
  lemma VerdictIsJustified(w: World, cfg: Config, actions: seq<Action>, e: Event)
    requires RunsIn(w, actions) && Run(cfg, actions).cleaner.Counted?
    requires Step(cfg, Run(cfg, actions), ReadHours).cleaner.Doomed?
    requires e in Of(Run(cfg, actions).kept, Path(Run(cfg, actions).cleaner.path))
    requires HourBucket(e.now) >= FirstHour(Run(cfg, actions).now)
    ensures e.now < Run(cfg, actions).now - cfg.inactive + HOUR
    ensures cfg.inactive < TTL - 1
  {
    hide Run, Name, SightOk, LinkOk, IndexOk, KeysOk, HoursOk, MainOk, Abandoned;
    var s := Run(cfg, actions);
    var sub := Path(s.cleaner.path);
    RunKeeps(w, cfg, actions);
    SubjectHolds(w, cfg, actions, sub);
    VerdictOnSlot(Fetch(s.db, Name(Hours(sub))), Of(s.kept, sub), Until(s.until, sub), s.now, cfg.inactive, e);
  }

  /** So a patient cleaner marks only paths whose 48-hour count is 0 at that moment. */
  lemma PatientVerdictIsIdle(w: World, cfg: Config, actions: seq<Action>)
    requires RunsIn(w, actions) && PatientConfig(cfg) && Run(cfg, actions).cleaner.Counted?
    requires Step(cfg, Run(cfg, actions), ReadHours).cleaner.Doomed?
    ensures var s := Run(cfg, actions); ReadSubject(s.db, Path(s.cleaner.path), s.now).count48h == 0
  {
    hide Run, ReadSubject, SumSeq, Abandoned, SubjectOk, KeysOk, IndexOk, Tally;
    var s := Run(cfg, actions);
    var sub := Path(s.cleaner.path);
    RunKeeps(w, cfg, actions);
    DoomedIsOutside(w, cfg, s);
    ReportShape(s.db, sub, s.now);
    forall i | 0 <= i < WINDOW_HOURS ensures ReadSubject(s.db, sub, s.now).hourly[i] == 0 {
      SlotIsBucket(w, cfg, actions, sub, s.now, i);
    }
    SumSeqZero(ReadSubject(s.db, sub, s.now).hourly);
  }

  // Step j of the run found the path's count low: fewer kept events than the minimum.
  ghost predicate CountedBy(cfg: Config, actions: seq<Action>, path: string, j: int) {
    && 0 <= j < |actions| && actions[j] == ReadCount(Name(Main(Path(path))))
    && 0 < |Of(Run(cfg, actions[..j]).kept, Path(path))| < cfg.minCount
  }

  // And step k, later, found its hours empty or too old.
  ghost predicate CondemnedBy(cfg: Config, actions: seq<Action>, path: string, j: int, k: int) {
    && CountedBy(cfg, actions, path, j) && j < k < |actions| && actions[k] == ReadHours
    && var s := Run(cfg, actions[..k]);
    && s.cleaner == Counted(path) && Abandoned(Fields(Fetch(s.db, Name(Hours(Path(path))))), s.now, cfg.inactive)
  }

  lemma {:induction false} CountedFrom(w: World, cfg: Config, actions: seq<Action>)
    requires RunsIn(w, actions) && Run(cfg, actions).cleaner.Counted?
    ensures exists j :: CountedBy(cfg, actions, Run(cfg, actions).cleaner.path, j)
  {
    hide Run, Step, Name, TrimPrefix, EventIn;
    if actions == [] {
      StartOk(w, cfg);
    } else {
      var before, last := actions[..|actions| - 1], actions[|actions| - 1];
      var s, path := Run(cfg, before), Run(cfg, actions).cleaner.path;
      assert actions == before + [last];
      RunAppend(cfg, before, last);
      StepFrame(cfg, s, last);
      if s.cleaner.Counted? {
        CountedFrom(w, cfg, before);
        var j :| CountedBy(cfg, before, path, j);
        assert before[..j] == actions[..j];
        assert CountedBy(cfg, actions, path, j);
      } else {
        LowCountMeansFewEvents(w, cfg, before, last.key);
        assert CountedBy(cfg, actions, path, |before|);
      }
    }
  }

  lemma {:induction false} DoomedFrom(w: World, cfg: Config, actions: seq<Action>)
    requires RunsIn(w, actions) && Run(cfg, actions).cleaner.Doomed?
    ensures exists j, k :: CondemnedBy(cfg, actions, Run(cfg, actions).cleaner.path, j, k)
  {
    hide Run, Step, Name, EventIn, Abandoned;
    if actions == [] {
      StartOk(w, cfg);
    } else {
      var before, last := actions[..|actions| - 1], actions[|actions| - 1];
      var s, path := Run(cfg, before), Run(cfg, actions).cleaner.path;
      assert actions == before + [last];
      RunAppend(cfg, before, last);
      StepFrame(cfg, s, last);
      if s.cleaner.Doomed? {
        DoomedFrom(w, cfg, before);
        var j, k :| CondemnedBy(cfg, before, path, j, k);
        assert before[..j] == actions[..j] && before[..k] == actions[..k];
        assert CondemnedBy(cfg, actions, path, j, k);
      } else {
        CountedFrom(w, cfg, before);
        var j :| CountedBy(cfg, before, path, j);
        VerdictIsAbandoned(cfg, s);
        assert before[..j] == actions[..j];
        assert CondemnedBy(cfg, actions, path, j, |before|);
      }
    }
  }

  /** A path about to be deleted was first found to have too few events and then, by a later step, to have
      no buckets or too old ones. With a patient cleaner all its 48-hour count at the moment of the
      deletion, however late that is, comes from events recorded after the verdict; without a racing
      write it is 0. */
  lemma DeletionIsJustified(w: World, cfg: Config, actions: seq<Action>)
    requires RunsIn(w, actions) && Run(cfg, actions).cleaner.Doomed?
    ensures var s := Run(cfg, actions);
      var path, kept := s.cleaner.path, Of(s.kept, Path(s.cleaner.path));
      var count48h, lo := ReadSubject(s.db, Path(path), s.now).count48h, FirstHour(s.now);
      && (exists j, k :: CondemnedBy(cfg, actions, path, j, k))
      && s.cleaner.seen <= |kept|
      && (PatientConfig(cfg) ==> count48h == Between(kept[s.cleaner.seen..], lo, lo + WINDOW_HOURS))
      && (PatientConfig(cfg) && Quiet(cfg, actions) ==> count48h == 0)
  {
    hide Run, ReadSubject, SumSeq, StoreOk, EventsOk, CondemnedBy, Quiet, Between, Tally;
    var s := Run(cfg, actions);
    var sub, kept := Path(s.cleaner.path), Of(s.kept, Path(s.cleaner.path));
    DoomedFrom(w, cfg, actions);
    RunKeeps(w, cfg, actions);
    ReportShape(s.db, sub, s.now);
    var hourly, late := ReadSubject(s.db, sub, s.now).hourly, kept[s.cleaner.seen..];
    if PatientConfig(cfg) {
      assert kept == kept[..s.cleaner.seen] + late;
      forall i | 0 <= i < WINDOW_HOURS ensures hourly[i] == Tally(late, FirstHour(s.now) + i) {
        SlotIsBucket(w, cfg, actions, sub, s.now, i);
        TallySplit(kept[..s.cleaner.seen], late, FirstHour(s.now) + i);
      }
      SlotsAddUp(hourly, late, FirstHour(s.now));
      if Quiet(cfg, actions) {
        QuietLosesNothing(cfg, actions);
        NothingBetween(late, FirstHour(s.now), FirstHour(s.now) + WINDOW_HOURS);
      }
    }
  }

  lemma NothingBetween(events: seq<Event>, lo: int, hi: int)
    ensures events == [] ==> Between(events, lo, hi) == 0
  {}

  // While any bucket is left, one is at least as late as the last event written for the subject.
  ghost predicate LaterBucketLeft(db: Db, sub: Subject, kept: seq<Event>) {
    var fields := Fields(Fetch(db, Name(Hours(sub))));
    kept != [] && fields != map[] ==>
      exists f :: f in fields && ParseInt(f).Some? && ParseInt(f).value >= HourBucket(kept[|kept| - 1].now)
  }

  // No prune is interrupted between its reading and its deletion.
  predicate WholePrunes(actions: seq<Action>) {
    forall i :: 0 <= i < |actions| ==> !actions[i].DropStale?
  }

  lemma {:induction false} LaterBucketStays(w: World, cfg: Config, actions: seq<Action>, sub: Subject)
    requires RunsIn(w, actions) && WholePrunes(actions) && sub in w
    ensures LaterBucketLeft(Run(cfg, actions).db, sub, Of(Run(cfg, actions).kept, sub))
  {
    hide Run, Step, LaterBucketLeft, EventIn, Inv;
    if actions == [] {
      NothingRecorded(cfg, sub);
    } else {
      var before, last := actions[..|actions| - 1], actions[|actions| - 1];
      assert actions == before + [last];
      RunAppend(cfg, before, last);
      RunKeeps(w, cfg, before);
      LaterBucketStays(w, cfg, before, sub);
      LaterBucketStep(w, cfg, Run(cfg, before), last, sub);
    }
  }

  lemma NothingRecorded(cfg: Config, sub: Subject)
    ensures LaterBucketLeft(Run(cfg, []).db, sub, Of(Run(cfg, []).kept, sub))
  {}

  lemma LaterBucketStep(w: World, cfg: Config, s: State, a: Action, sub: Subject)
    requires Inv(w, cfg, s) && sub in w && !a.DropStale?
    requires LaterBucketLeft(s.db, sub, Of(s.kept, sub))
    ensures LaterBucketLeft(Step(cfg, s, a).db, sub, Of(Step(cfg, s, a).kept, sub))
  {
    hide Inv, Recorded, Credit, Renew, Cleaned, DeletedPath, Ticked, LaterBucketLeft, LowCount, IsMainKey, Abandoned, Name;
    match a {
      case Tick(to) => if s.now <= to { LaterBucketTick(s, to, sub); }
      case Write(i) => if i < |s.held| { LaterBucketWrite(w, cfg, s, i, sub); }
      case CleanWindow(key, at) => LaterBucketClean(w, cfg, s, key, at, sub);
      case Delete =>
        if s.cleaner.Doomed? && s.cleaner.seen <= |Of(s.kept, Path(s.cleaner.path))| { LaterBucketDelete(w, cfg, s, sub); }
      case _ =>
    }
  }

  lemma LaterBucketTick(s: State, to: Time, sub: Subject)
    requires s.now <= to && LaterBucketLeft(s.db, sub, Of(s.kept, sub))
    ensures LaterBucketLeft(Ticked(s, to).db, sub, Of(Ticked(s, to).kept, sub))
  {
    hide Name;
    KeptTicked(s, to, sub);
  }

  lemma LaterBucketWrite(w: World, cfg: Config, s: State, i: nat, sub: Subject)
    requires Inv(w, cfg, s) && sub in w && i < |s.held| && LaterBucketLeft(s.db, sub, Of(s.kept, sub))
    ensures LaterBucketLeft(Written(s, i).db, sub, Of(Written(s, i).kept, sub))
  {
    hide StoreOk, CleanerOk, Recorded, Name, Credit, Renew, FormatInt, ParseInt, HourBucket;
    var e := s.held[i];
    KeptCredited(s.kept, e, sub);
    RecordedAt(w, s.db, e, s.now, Hours(sub));
    if Concerns(e, sub) {
      BumpedHasHour(Fetch(s.db, Name(Hours(sub))), e, s.now);
      ParseInverse(HourBucket(e.now));
    }
  }

  lemma BumpedHasHour(slot: Option<Slot>, e: Event, now: Time)
    ensures Fields(BumpHour(slot, e, now)) == map[] || FormatInt(HourBucket(e.now)) in Fields(BumpHour(slot, e, now))
  {
    hide FormatInt;
    if FormatInt(HourBucket(e.now)) == FormatInt(HourBucket(e.now) - WINDOW_HOURS) {
      FormatInjective(HourBucket(e.now), HourBucket(e.now) - WINDOW_HOURS);
    }
  }

  lemma LaterBucketClean(w: World, cfg: Config, s: State, key: string, at: Time, sub: Subject)
    requires Inv(w, cfg, s) && sub in w && LaterBucketLeft(s.db, sub, Of(s.kept, sub))
    ensures LaterBucketLeft(Cleaned(s.db, key, at), sub, Of(s.kept, sub))
  {
    hide Cleaned, Name, SightOk, HoursOk, MainOk, LinkOk, StaleFields, DropFields, ParseInt, KeysOk, IndexOk, CleanerOk, EventsOk;
    var kept := Of(s.kept, sub);
    assert SubjectOk(PatientConfig(cfg), s, sub);
    CleanedGroupKeys(s.db, s.now, sub, kept, Until(s.until, sub), key, at);
    LatestDropsLast(Fetch(s.db, Name(Hours(sub))), FirstHour(at));
  }

  // A prune that leaves any bucket leaves the latest one.
  lemma LatestDropsLast(slot: Option<Slot>, since: int)
    ensures var fields, left := Fields(slot), Fields(DropFields(slot, StaleFields(Fields(slot), since)));
      left != map[] ==>
        fields != map[] && forall f :: f in fields && ParseInt(f).Some? ==>
          exists g :: g in left && ParseInt(g).Some? && ParseInt(g).value >= ParseInt(f).value
  {
    hide ParseInt;
    var fields, left := Fields(slot), Fields(DropFields(slot, StaleFields(Fields(slot), since)));
    if left != map[] {
      var g :| g in left;
      assert ParseInt(g).Some? && ParseInt(g).value >= since;
    }
  }

  lemma LaterBucketDelete(w: World, cfg: Config, s: State, sub: Subject)
    requires Inv(w, cfg, s) && sub in w && s.cleaner.Doomed? && LaterBucketLeft(s.db, sub, Of(s.kept, sub))
    requires s.cleaner.seen <= |Of(s.kept, Path(s.cleaner.path))|
    ensures LaterBucketLeft(PathDeleted(s).db, sub, Of(PathDeleted(s).kept, sub))
  {
    hide StoreOk, Name, EventsOk, DeletedPath;
    DeletedPathAt(w, s.db, s.cleaner.path, Hours(sub));
  }

  lemma VerdictIsAbandoned(cfg: Config, s: State)
    requires s.cleaner.Counted? && Step(cfg, s, ReadHours).cleaner.Doomed?
    ensures Abandoned(Fields(Fetch(s.db, Name(Hours(Path(s.cleaner.path))))), s.now, cfg.inactive)
  {
    hide Abandoned, Name;
  }

  /** In whatever order events are written, a path is marked for deletion only when it has no buckets at
      all or the last event written for it happened more than `inactive` minus one hour ago, however
      long `inactive` is. */
  lemma LastEventIsOld(w: World, cfg: Config, actions: seq<Action>)
    requires RunsIn(w, actions) && WholePrunes(actions)
    requires Run(cfg, actions).cleaner.Counted? && Step(cfg, Run(cfg, actions), ReadHours).cleaner.Doomed?
    ensures var s := Run(cfg, actions);
      var events := About(s.log, Path(s.cleaner.path));
      || Fields(Fetch(s.db, Name(Hours(Path(s.cleaner.path))))) == map[]
      || (events != [] && events[|events| - 1].now < s.now - cfg.inactive + HOUR)
  {
    hide Run, Step, GroupOk, Name, KeysOk, IndexOk, EventsOk, About, Abandoned, LaterBucketLeft, EndsWith, Balanced;
    var s := Run(cfg, actions);
    var sub := Path(s.cleaner.path);
    RunKeeps(w, cfg, actions);
    SubjectHolds(w, cfg, actions, sub);
    VerdictIsAbandoned(cfg, s);
    LaterBucketStays(w, cfg, actions, sub);
    BucketsNeedEvents(s.db, s.now, sub, Of(s.kept, sub), Until(s.until, sub));
    LaterBucketJudged(s.db, sub, Of(s.kept, sub), s.now, cfg.inactive);
    SameLast(About(s.log, sub), Of(s.kept, sub));
  }

  lemma BucketsNeedEvents(db: Db, now: Time, sub: Subject, kept: seq<Event>, expiry: int)
    requires GroupOk(db, now, sub, kept, expiry)
    ensures kept == [] ==> Fields(Fetch(db, Name(Hours(sub)))) == map[]
  {
    hide Name;
  }

  lemma SameLast(all: seq<Event>, tail: seq<Event>)
    requires EndsWith(all, tail)
    ensures tail != [] ==> all != [] && all[|all| - 1] == tail[|tail| - 1]
  {}

  lemma LaterBucketJudged(db: Db, sub: Subject, kept: seq<Event>, now: Time, inactive: int)
    requires LaterBucketLeft(db, sub, kept) && Abandoned(Fields(Fetch(db, Name(Hours(sub)))), now, inactive)
    ensures kept != [] && Fields(Fetch(db, Name(Hours(sub)))) != map[] ==> kept[|kept| - 1].now < now - inactive + HOUR
  {
    hide Name, ParseInt, HourBucket;
    var fields := Fields(Fetch(db, Name(Hours(sub))));
    if kept != [] && fields != map[] {
      var e := kept[|kept| - 1];
      LaterThanLatest(HourBucket(e.now), LatestHour(fields), now, inactive, e);
    }
  }

  // ------------------------------------------------------------ queue and hash size

  /** No event is lost or invented between the requests and the log: every offered event was
      refused, is queued, is with a worker, or has been recorded, and queue and workers stay within
      their limits. */
  lemma {:induction false} EventsAreConserved(cfg: Config, actions: seq<Action>)
    ensures Conserved(cfg, Run(cfg, actions))
  {
    hide Step;
    if actions != [] {
      EventsAreConserved(cfg, actions[..|actions| - 1]);
      EventsStep(cfg, Run(cfg, actions[..|actions| - 1]), actions[|actions| - 1]);
    }
  }

  /** And an event is refused only by a full queue. */
  lemma {:induction false} RefusedByFullQueue(cfg: Config, actions: seq<Action>, e: Event)
    requires e in Run(cfg, actions).refused
    ensures exists k :: 0 <= k < |actions| && actions[k] == Offer(e) && |Run(cfg, actions[..k]).queue| == cfg.capacity
  {
    hide Step;
    var before, last := actions[..|actions| - 1], actions[|actions| - 1];
    if e in Run(cfg, before).refused {
      RefusedByFullQueue(cfg, before, e);
      var k :| 0 <= k < |before| && before[k] == Offer(e) && |Run(cfg, before[..k]).queue| == cfg.capacity;
      assert before[..k] == actions[..k] && before[k] == actions[k];
    } else {
      EventsAreConserved(cfg, before);
      NewlyRefused(cfg, Run(cfg, before), last, e);
    }
  }

  lemma NewlyRefused(cfg: Config, s: State, a: Action, e: Event)
    requires e !in s.refused && e in Step(cfg, s, a).refused
    ensures a == Offer(e) && |s.queue| >= cfg.capacity
  {
    hide Step;
    StepFrame(cfg, s, a);
  }

  predicate Conserved(cfg: Config, s: State) {
    && multiset(s.offered) == multiset(s.refused) + multiset(s.queue) + multiset(s.held) + multiset(s.log)
    && |s.queue| <= cfg.capacity && |s.held| <= cfg.workers
    && |s.offered| == |s.refused| + |s.queue| + |s.held| + |s.log|
  }

  lemma EventsStep(cfg: Config, s: State, a: Action)
    requires Conserved(cfg, s)
    ensures Conserved(cfg, Step(cfg, s, a))
  {
    hide Written, Cleaned, PathDeleted, HoursRead, LowCount, Ticked, IsMainKey, Conserved;
    match a {
      case Take => if s.queue != [] { TakeConserves(cfg, s); }
      case Write(i) => if i < |s.held| { WriteConserves(cfg, s, i); }
      case Offer(e) => OfferConserves(cfg, s, e);
      case _ => OtherConserves(cfg, s, a);
    }
  }

  lemma TakeConserves(cfg: Config, s: State)
    requires Conserved(cfg, s) && s.queue != []
    ensures Conserved(cfg, Step(cfg, s, Take))
  {
    assert multiset(s.held + [s.queue[0]]) == multiset(s.held) + multiset{s.queue[0]};
    assert s.queue == [s.queue[0]] + s.queue[1..];
  }

  lemma WriteConserves(cfg: Config, s: State, i: nat)
    requires Conserved(cfg, s) && i < |s.held|
    ensures Conserved(cfg, Written(s, i))
  {
    hide Recorded, Credit;
    assert s.held == s.held[..i] + [s.held[i]] + s.held[i + 1..];
  }

  lemma OfferConserves(cfg: Config, s: State, e: Event)
    requires Conserved(cfg, s)
    ensures Conserved(cfg, Step(cfg, s, Offer(e)))
  {
    hide Step;
    OfferStep(cfg, s, e);
  }

  lemma OfferStep(cfg: Config, s: State, e: Event)
    ensures Step(cfg, s, Offer(e)) ==
      if e.now > s.now then s
      else if |s.queue| < cfg.capacity then s.(offered := s.offered + [e], queue := s.queue + [e])
      else s.(offered := s.offered + [e], refused := s.refused + [e])
  {}

  lemma OtherConserves(cfg: Config, s: State, a: Action)
    requires Conserved(cfg, s) && !a.Take? && !a.Write? && !a.Offer?
    ensures Conserved(cfg, Step(cfg, s, a))
  {
    hide Step, Conserved;
    OtherFrame(cfg, s, a);
    SameEvents(cfg, s, Step(cfg, s, a));
  }

  lemma OtherFrame(cfg: Config, s: State, a: Action)
    requires !a.Take? && !a.Write? && !a.Offer?
    ensures var s' := Step(cfg, s, a);
      s'.offered == s.offered && s'.refused == s.refused && s'.queue == s.queue && s'.held == s.held && s'.log == s.log
  {
    hide Ticked, HoursRead, PathDeleted, Cleaned, LowCount, IsMainKey, HDel, AllStale, HasSuffix, TrimPrefix;
    match a {
      case Tick(to) => TickedFrame(s, to);
      case ReadHours => if s.cleaner.Counted? { HoursReadFrame(cfg, s); }
      case Delete =>
        if s.cleaner.Doomed? && s.cleaner.seen <= |Of(s.kept, Path(s.cleaner.path))| { PathDeletedFrame(s); }
      case _ =>
    }
  }

  lemma SameEvents(cfg: Config, s: State, s': State)
    requires s'.offered == s.offered && s'.refused == s.refused && s'.queue == s.queue && s'.held == s.held && s'.log == s.log
    ensures Conserved(cfg, s') <==> Conserved(cfg, s)
  {}

  // Every bucket of a hash lies between two hours.
  predicate FieldsIn(fields: map<string, int>, lo: int, hi: int) {
    forall f :: f in fields ==> ParseInt(f).Some? && lo <= ParseInt(f).value <= hi && f == FormatInt(ParseInt(f).value)
  }

  lemma {:induction false} FieldsBound(fields: map<string, int>, lo: int, hi: int)
    requires FieldsIn(fields, lo, hi) && lo <= hi + 1
    ensures |fields| <= hi - lo + 1
    decreases hi - lo + 1
  {
    hide ParseInt, FormatInt;
    if lo == hi + 1 {
      assert fields == map[];
    } else {
      FieldsBound(fields - {FormatInt(hi)}, lo, hi - 1);
      OneFewer(fields, FormatInt(hi));
    }
  }

  lemma OneFewer(fields: map<string, int>, f: string)
    ensures |fields| <= |fields - {f}| + 1
  {
    var rest := (fields - {f}).Keys;
    assert fields.Keys <= rest + {f};
    assert |fields.Keys| <= |rest + {f}| <= |rest| + 1;
  }

  predicate FreshWrite(s: State, a: Action, sub: Subject, since: int) {
    a.Write? && a.worker < |s.held| && Concerns(s.held[a.worker], sub) ==> HourBucket(s.held[a.worker].now) >= since
  }

  predicate FieldsFrom(slot: Option<Slot>, lo: int) {
    forall f :: f in Fields(slot) ==> ParseInt(f).Some? && ParseInt(f).value >= lo
  }

  lemma HoursWritten(w: World, db: Db, e: Event, now: Time, sub: Subject, lo: int)
    requires EventIn(w, e) && sub in w && FieldsFrom(Fetch(db, Name(Hours(sub))), lo)
    requires Concerns(e, sub) ==> HourBucket(e.now) >= lo
    ensures FieldsFrom(Fetch(Recorded(db, e, now), Name(Hours(sub))), lo)
  {
    hide Recorded, Name, ParseInt, FormatInt, HourBucket;
    RecordedAt(w, db, e, now, Hours(sub));
    ParseInverse(HourBucket(e.now));
  }

  // An hour hash gains a field only from a write for its own subject.
  lemma HoursStep(w: World, cfg: Config, s: State, a: Action, sub: Subject, lo: int)
    requires Inv(w, cfg, s) && sub in w && FreshWrite(s, a, sub, lo)
    requires FieldsFrom(Fetch(s.db, Name(Hours(sub))), lo)
    ensures FieldsFrom(Fetch(Step(cfg, s, a).db, Name(Hours(sub))), lo)
  {
    hide Recorded, Name, StoreOk, CleanerOk, DeletedPath, Cleaned, ParseInt, HourBucket, IsMainKey, LowCount, Abandoned, EventIn;
    match a {
      case Write(i) => if i < |s.held| { HoursWritten(w, s.db, s.held[i], s.now, sub, lo); }
      case CleanWindow(key, at) => CleanedFrom(s.db, key, at, Name(Hours(sub)), lo);
      case DropStale(key, fields, _) => DroppedFrom(s.db, key, fields, Name(Hours(sub)), lo);
      case Delete => DeletedFrom(s.db, if s.cleaner.Doomed? then s.cleaner.path else "", Name(Hours(sub)), lo);
      case _ =>
    }
  }

  lemma CleanedFrom(db: Db, key: string, at: Time, name: string, lo: int)
    requires FieldsFrom(Fetch(db, name), lo)
    ensures FieldsFrom(Fetch(Cleaned(db, key, at), name), lo)
  {}

  lemma DroppedFrom(db: Db, key: string, fields: set<string>, name: string, lo: int)
    requires FieldsFrom(Fetch(db, name), lo)
    ensures FieldsFrom(Fetch(HDel(db, key, fields), name), lo)
  {
    hide ParseInt;
  }

  lemma DeletedFrom(db: Db, path: string, name: string, lo: int)
    requires FieldsFrom(Fetch(db, name), lo)
    ensures FieldsFrom(Fetch(DeletedPath(db, path), name), lo)
  {}

  // From a prune on, no write for the subject brings an hour older than that prune's window.
  ghost predicate FreshAfter(cfg: Config, actions: seq<Action>, from: nat, sub: Subject, since: int) {
    forall k :: from < k < |actions| ==> FreshWrite(Run(cfg, actions[..k]), actions[k], sub, since)
  }

  lemma PruneLeaves(w: World, cfg: Config, before: seq<Action>, sub: Subject, at: Time)
    requires RunsIn(w, before) && sub in w && at <= Run(cfg, before).now
    ensures FieldsFrom(Fetch(Cleaned(Run(cfg, before).db, Name(Hours(sub)), at), Name(Hours(sub))), FirstHour(at))
  {
    hide Run, Name, SightOk, LinkOk, ParseInt, FormatInt, FirstHour;
    var slot := Fetch(Run(cfg, before).db, Name(Hours(sub)));
    SubjectHolds(w, cfg, before, sub);
    HoursIsPruned(sub);
    var stale := StaleFields(Fields(slot), FirstHour(at));
    assert forall f :: f in Fields(slot) && f !in stale ==> ParseInt(f).Some? && ParseInt(f).value >= FirstHour(at);
  }

  lemma {:induction false} FieldsStayFresh(w: World, cfg: Config, actions: seq<Action>, from: nat, sub: Subject, at: Time)
    requires RunsIn(w, actions) && sub in w && from < |actions|
    requires actions[from] == CleanWindow(Name(Hours(sub)), at) && at <= Run(cfg, actions[..from]).now
    requires FreshAfter(cfg, actions, from, sub, FirstHour(at))
    ensures FieldsFrom(Fetch(Run(cfg, actions).db, Name(Hours(sub))), FirstHour(at))
    decreases |actions|
  {
    hide Name, Inv, Cleaned, FieldsFrom, EventIn, FirstHour, FreshWrite, Run;
    var last := |actions| - 1;
    var before := actions[..last];
    assert actions == before + [actions[last]];
    RunAppend(cfg, before, actions[last]);
    if from == last {
      PruneLeaves(w, cfg, before, sub, at);
    } else {
      assert before[..from] == actions[..from];
      assert forall k :: from < k < |before| ==> before[..k] == actions[..k];
      FieldsStayFresh(w, cfg, before, from, sub, at);
      RunKeeps(w, cfg, before);
      HoursStep(w, cfg, Run(cfg, before), actions[last], sub, FirstHour(at));
    }
  }

  /** The hour hash stays small: after a prune whose clock reading was `at`, and as long as no event
      older than that prune's window is written, it holds at most 48 fields plus one for every hour
      that has begun since. */
  lemma HashStaysSmall(w: World, cfg: Config, actions: seq<Action>, from: nat, sub: Subject, at: Time)
    requires RunsIn(w, actions) && sub in w && from < |actions|
    requires actions[from] == CleanWindow(Name(Hours(sub)), at) && at <= Run(cfg, actions[..from]).now
    requires FreshAfter(cfg, actions, from, sub, FirstHour(at))
    ensures var s := Run(cfg, actions);
      at <= s.now && |Fields(Fetch(s.db, Name(Hours(sub))))| <= WINDOW_HOURS + HourBucket(s.now) - HourBucket(at)
  {
    hide Name, SightOk, LinkOk, Run, EventIn, ParseInt, FormatInt, FreshAfter;
    var s, lo := Run(cfg, actions), FirstHour(at);
    var fields := Fields(Fetch(s.db, Name(Hours(sub))));
    FieldsStayFresh(w, cfg, actions, from, sub, at);
    SubjectHolds(w, cfg, actions, sub);
    ClockAdvances(cfg, actions, from);
    ClockMonotone(at, s.now);
    FieldsBound(fields, lo, HourBucket(s.now));
  }

  // ------------------------------------------------------------ timestamp order and the size of a hash

  // No two buckets are exactly 48 hours apart.
  predicate NoTwins(fields: map<string, int>) {
    forall f, g :: f in fields && g in fields && ParseInt(f).Some? && ParseInt(g).Some? ==>
      ParseInt(g).value != ParseInt(f).value + WINDOW_HOURS
  }

  // Every bucket lies in one of two bands of n hours, 48 hours apart.
  predicate Banded(fields: map<string, int>, lo: int, n: int) {
    forall f :: f in fields ==>
      && ParseInt(f).Some? && f == FormatInt(ParseInt(f).value)
      && var h := ParseInt(f).value; lo <= h < lo + n || lo <= h - WINDOW_HOURS < lo + n
  }

  lemma {:induction false} TwinBound(fields: map<string, int>, lo: int, n: nat)
    requires NoTwins(fields) && Banded(fields, lo, n)
    ensures |fields| <= n
  {
    hide ParseInt, FormatInt, NoTwins, Banded;
    if n == 0 {
      NoBand(fields, lo);
    } else {
      var f, g := FormatInt(lo + n - 1), FormatInt(lo + n - 1 + WINDOW_HOURS);
      BandShrinks(fields, lo, n);
      TwinBound(fields - {f, g}, lo, n - 1);
      OneOfTwo(fields, f, g);
    }
  }

  lemma OneOfTwo(fields: map<string, int>, f: string, g: string)
    requires !(f in fields && g in fields)
    ensures |fields| <= |fields - {f, g}| + 1
  {
    var taken := if f in fields then f else g;
    OneFewer(fields, taken);
    assert (fields - {f, g}).Keys == (fields - {taken}).Keys;
  }

  lemma NoBand(fields: map<string, int>, lo: int)
    requires Banded(fields, lo, 0)
    ensures fields == map[]
  {}

  lemma BandShrinks(fields: map<string, int>, lo: int, n: nat)
    requires NoTwins(fields) && Banded(fields, lo, n) && n > 0
    ensures var f, g := FormatInt(lo + n - 1), FormatInt(lo + n - 1 + WINDOW_HOURS);
      NoTwins(fields - {f, g}) && Banded(fields - {f, g}, lo, n - 1) && !(f in fields && g in fields)
  {
    hide ParseInt, FormatInt;
    ParseInverse(lo + n - 1);
    ParseInverse(lo + n - 1 + WINDOW_HOURS);
  }

  // In timestamp order no bucket is later than the event being written.
  lemma BucketsInOrder(slot: Option<Slot>, kept: seq<Event>, expiry: int, now: Time, hour: int)
    requires HoursOk(slot, kept, expiry, now) && forall d :: d in kept ==> HourBucket(d.now) <= hour
    ensures forall f :: f in Fields(slot) ==> ParseInt(f).Some? && ParseInt(f).value <= hour
  {
    hide FormatInt, ParseInt, HourBucket, Tally;
    forall f | f in Fields(slot) ensures ParseInt(f).Some? && ParseInt(f).value <= hour {
      var h := ParseInt(f).value;
      assert Bucket(slot, h) >= 1;
      if h > hour {
        TallyWithin(kept, h, 0, hour);
      }
    }
  }

  lemma TwinsBumped(slot: Option<Slot>, e: Event, now: Time)
    requires NoTwins(Fields(slot))
    requires forall f :: f in Fields(slot) ==> ParseInt(f).Some? && f == FormatInt(ParseInt(f).value)
    requires forall f :: f in Fields(slot) ==> ParseInt(f).value <= HourBucket(e.now)
    ensures NoTwins(Fields(BumpHour(slot, e, now)))
  {
    hide FormatInt, ParseInt, HourBucket;
    ParseInverse(HourBucket(e.now));
    ParseInverse(HourBucket(e.now) - WINDOW_HOURS);
  }

  lemma TwinsStep(w: World, cfg: Config, s: State, a: Action, sub: Subject)
    requires Inv(w, cfg, s) && sub in w && Ordered(Step(cfg, s, a).log)
    requires NoTwins(Fields(Fetch(s.db, Name(Hours(sub)))))
    ensures NoTwins(Fields(Fetch(Step(cfg, s, a).db, Name(Hours(sub)))))
  {
    hide Inv, NoTwins, Recorded, Name, DeletedPath, Cleaned, HDel, Purge, ParseInt, IsMainKey, LowCount, Abandoned, Ordered, Credit, Renew;
    var key := Name(Hours(sub));
    match a {
      case Write(i) => if i < |s.held| { TwinsWritten(w, cfg, s, i, sub); }
      case Tick(to) => FewerFields(s.db, Purge(s.db, to), key);
      case CleanWindow(k, at) => FewerFields(s.db, Cleaned(s.db, k, at), key);
      case DropStale(k, fields, _) => FewerFields(s.db, HDel(s.db, k, fields), key);
      case Delete => if s.cleaner.Doomed? { FewerFields(s.db, DeletedPath(s.db, s.cleaner.path), key); }
      case _ =>
    }
  }

  predicate Loses(db: Db, db': Db, key: string) {
    Fields(Fetch(db', key)).Keys <= Fields(Fetch(db, key)).Keys
  }

  // Everything the clock and the cleaner do to the store only takes fields away.
  lemma FewerFields(db: Db, db': Db, key: string)
    requires NoTwins(Fields(Fetch(db, key)))
    ensures Loses(db, db', key) ==> NoTwins(Fields(Fetch(db', key)))
    ensures forall to :: Loses(db, Purge(db, to), key)
    ensures forall k, at :: Loses(db, Cleaned(db, k, at), key)
    ensures forall k, fields :: Loses(db, HDel(db, k, fields), key)
    ensures forall path :: Loses(db, DeletedPath(db, path), key)
  {
    hide ParseInt, Name, ActionFor, Stale;
  }

  lemma TwinsWritten(w: World, cfg: Config, s: State, i: nat, sub: Subject)
    requires Inv(w, cfg, s) && sub in w && i < |s.held| && Ordered(s.log + [s.held[i]])
    requires NoTwins(Fields(Fetch(s.db, Name(Hours(sub)))))
    ensures NoTwins(Fields(Fetch(Recorded(s.db, s.held[i], s.now), Name(Hours(sub)))))
  {
    hide StoreOk, CleanerOk, NoTwins, Recorded, Name, BumpHour, FormatInt, ParseInt, HourBucket, Ordered;
    var e := s.held[i];
    RecordedAt(w, s.db, e, s.now, Hours(sub));
    if Concerns(e, sub) {
      FieldsBefore(w, cfg, s, e, sub);
      TwinsBumped(Fetch(s.db, Name(Hours(sub))), e, s.now);
    }
  }

  // In timestamp order every bucket of a subject is at most as late as the event being written.
  lemma FieldsBefore(w: World, cfg: Config, s: State, e: Event, sub: Subject)
    requires Inv(w, cfg, s) && sub in w && Ordered(s.log + [e])
    ensures forall f :: f in Fields(Fetch(s.db, Name(Hours(sub)))) ==>
      ParseInt(f).Some? && f == FormatInt(ParseInt(f).value) && ParseInt(f).value <= HourBucket(e.now)
  {
    hide KeysOk, IndexOk, EventsOk, CleanerOk, SightOk, MainOk, Balanced, Name, FormatInt, ParseInt, HourBucket, Ordered;
    var slot, kept := Fetch(s.db, Name(Hours(sub))), Of(s.kept, sub);
    assert SubjectOk(PatientConfig(cfg), s, sub);
    forall d | d in kept ensures HourBucket(d.now) <= HourBucket(e.now) {
      LoggedBefore(s.log, e, d);
      ClockMonotone(d.now, e.now);
    }
    if kept != [] {
      BucketsInOrder(slot, kept, Until(s.until, sub), s.now, HourBucket(e.now));
    }
  }

  lemma LoggedBefore(log: seq<Event>, e: Event, d: Event)
    requires Ordered(log + [e]) && d in log
    ensures d.now <= e.now
  {
    var j :| 0 <= j < |log| && log[j] == d;
    assert (log + [e])[j] == d && (log + [e])[|log|] == e;
  }

  lemma {:induction false} NoTwinsInOrder(w: World, cfg: Config, actions: seq<Action>, sub: Subject)
    requires RunsIn(w, actions) && sub in w && Ordered(Run(cfg, actions).log)
    ensures NoTwins(Fields(Fetch(Run(cfg, actions).db, Name(Hours(sub)))))
  {
    hide Run, Step, Ordered, EventIn, Inv, Name;
    if actions == [] {
      EmptyStart(cfg, Name(Hours(sub)));
    } else {
      var before, last := actions[..|actions| - 1], actions[|actions| - 1];
      assert actions == before + [last];
      RunAppend(cfg, before, last);
      RunKeeps(w, cfg, before);
      OrderedBefore(cfg, Run(cfg, before), last);
      NoTwinsInOrder(w, cfg, before, sub);
      TwinsStep(w, cfg, Run(cfg, before), last, sub);
    }
  }

  lemma EmptyStart(cfg: Config, key: string)
    ensures Fields(Fetch(Run(cfg, []).db, key)) == map[]
  {}

  lemma OrderedBefore(cfg: Config, s: State, a: Action)
    requires Ordered(Step(cfg, s, a).log)
    ensures Ordered(s.log)
  {
    hide Step;
    LogStep(cfg, s, a);
    var log := Step(cfg, s, a).log;
    assert forall i :: 0 <= i < |s.log| ==> log[i] == s.log[i];
  }

  /** With events written in timestamp order the hash never exceeds 48 fields within 48 hours of a
      prune: each write removes the bucket 48 hours before its own. */
  lemma OrderedHashStaysSmaller(w: World, cfg: Config, actions: seq<Action>, from: nat, sub: Subject, at: Time)
    requires RunsIn(w, actions) && sub in w && from < |actions| && Ordered(Run(cfg, actions).log)
    requires actions[from] == CleanWindow(Name(Hours(sub)), at) && at <= Run(cfg, actions[..from]).now
    requires FreshAfter(cfg, actions, from, sub, FirstHour(at))
    requires HourBucket(Run(cfg, actions).now) <= HourBucket(at) + WINDOW_HOURS
    ensures |Fields(Fetch(Run(cfg, actions).db, Name(Hours(sub))))| <= WINDOW_HOURS
  {
    hide Name, SightOk, MainOk, LinkOk, Run, EventIn, ParseInt, FormatInt, FreshAfter, NoTwins, Ordered, HourBucket;
    var s, lo := Run(cfg, actions), FirstHour(at);
    FieldsStayFresh(w, cfg, actions, from, sub, at);
    SubjectHolds(w, cfg, actions, sub);
    NoTwinsInOrder(w, cfg, actions, sub);
    TwinBound(Fields(Fetch(s.db, Name(Hours(sub)))), lo, WINDOW_HOURS);
  }
}
