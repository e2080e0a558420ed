/** Where the guarantees of the statistics stop: concrete runs, one for each hypothesis, and the
    exact configuration under which deletion is safe. */
module StatEdges {
  import opened Wrappers
  import opened Strings
  import opened Redis
  import opened StatKeys
  import opened Clock
  import opened Decimal
  import opened Sums
  import opened Recording
  import opened StatSystem
  import opened StatProofs
  import opened StatReads
  import opened StatTheorems
  import opened StatLimits

  lemma QuietAppend(cfg: Config, actions: seq<Action>, a: Action)
    requires Quiet(cfg, actions) && QuietAt(Run(cfg, actions), a)
    ensures Quiet(cfg, actions + [a])
  {
    forall k | 0 <= k < |actions + [a]| ensures QuietAt(Run(cfg, (actions + [a])[..k]), (actions + [a])[k]) {
      if k < |actions| {
        assert (actions + [a])[..k] == actions[..k];
      } else {
        assert (actions + [a])[..k] == actions;
      }
    }
  }

  const TOKEN := "abcdefghijklmnop"

  // The world of the concrete runs below: one path and one token.
  ghost function Home(): (w: World)
    ensures w == {Path("a"), Token(TOKEN)}
  {
    PlainIsSeparated({Path("a"), Token(TOKEN)});
    {Path("a"), Token(TOKEN)}
  }

  // One event goes through queue and worker into the store.
  function Delivery(e: Event): seq<Action> {
    [Offer(e), Take, Write(0)]
  }

  predicate Drained(s: State) {
    s.queue == [] && s.held == []
  }

  lemma DeliverySteps(cfg: Config, s: State, e: Event)
    requires cfg.capacity >= 1 && cfg.workers >= 1 && Drained(s) && e.now <= s.now
    ensures var s1 := Step(cfg, s, Offer(e));
      s1 == s.(offered := s.offered + [e], queue := [e]) && Step(cfg, s1, Take) == s1.(queue := [], held := [e])
    ensures var s2 := s.(offered := s.offered + [e], queue := [], held := [e]);
      Step(cfg, s2, Write(0)) == s2.(db := Recorded(s.db, e, s.now), held := [], log := s.log + [e],
                                     kept := Credit(s.kept, e), until := Renew(s.until, e, s.now + TTL))
  {
    hide Recorded, Credit, Renew;
  }

  lemma Delivered(w: World, cfg: Config, actions: seq<Action>, e: Event)
    requires cfg.capacity >= 1 && cfg.workers >= 1 && RunsIn(w, actions) && EventIn(w, e)
    requires var s := Run(cfg, actions); Drained(s) && e.now <= s.now
    ensures RunsIn(w, actions + Delivery(e))
    ensures var s, s' := Run(cfg, actions), Run(cfg, actions + Delivery(e));
      && Drained(s') && s'.now == s.now && s'.cleaner == s.cleaner && s'.raced == s.raced
      && s'.log == s.log + [e] && s'.kept == Credit(s.kept, e) && s'.until == Renew(s.until, e, s.now + TTL)
      && s'.db == Recorded(s.db, e, s.now)
    ensures Quiet(cfg, actions) && Run(cfg, actions).cleaner.Idle? ==> Quiet(cfg, actions + Delivery(e))
  {
    hide Recorded, Credit, Renew, Quiet, EventIn, Step, Run;
    var a1, a2 := actions + [Offer(e)], actions + [Offer(e)] + [Take];
    assert actions + Delivery(e) == a2 + [Write(0)];
    DeliverySteps(cfg, Run(cfg, actions), e);
    RunAppend(cfg, actions, Offer(e));
    RunAppend(cfg, a1, Take);
    RunAppend(cfg, a2, Write(0));
    if Quiet(cfg, actions) && Run(cfg, actions).cleaner.Idle? {
      QuietAppend(cfg, actions, Offer(e));
      QuietAppend(cfg, a1, Take);
      QuietAppend(cfg, a2, Write(0));
    }
  }

  function Visit(now: Time): Event {
    Event("a", "", "192.0.2.1", "agent", now)
  }

  lemma VisitIsSafe(now: Time)
    ensures EventIn(Home(), Visit(now)) && Path("a") in Home()
  {}

  // A run that delivers one visit at `at` and lets the clock reach `to`.
  function LoneVisit(at: Time, to: Time): seq<Action> {
    [Tick(at)] + Delivery(Visit(at)) + [Tick(to)]
  }

  lemma StartIsQuiet(cfg: Config)
    ensures Quiet(cfg, []) && RunsIn(Home(), []) && Run(cfg, []) == Start
  {}

  // Kept events survive a tick that does not reach their expiry.
  lemma KeptThroughTick(w: World, cfg: Config, actions: seq<Action>, to: Time, sub: Subject, e: Event)
    requires RunsIn(w, actions) && sub in w && Run(cfg, actions).now <= to
    requires e in Of(Run(cfg, actions).kept, sub) && to < e.now + TTL
    ensures Of(Run(cfg, actions + [Tick(to)]).kept, sub) == Of(Run(cfg, actions).kept, sub)
  {
    hide Run, Name, HoursOk, SightOk, LinkOk, Ticked;
    RunAppend(cfg, actions, Tick(to));
    SubjectHolds(w, cfg, actions, sub);
    RunKeeps(w, cfg, actions);
    KeptTicked(Run(cfg, actions), to, sub);
  }

  // The state after a lone visit: the visit is recorded and still kept.
  ghost predicate LoneVisitIn(s: State, at: Time, to: Time) {
    && Drained(s) && s.now == to && s.cleaner == Idle && s.log == [Visit(at)]
    && Of(s.kept, Path("a")) == [Visit(at)] && s.raced == map[]
  }

  lemma LoneVisitState(cfg: Config, at: Time, to: Time)
    requires cfg.capacity >= 1 && cfg.workers >= 1 && at <= to < at + TTL
    ensures RunsIn(Home(), LoneVisit(at, to)) && Quiet(cfg, LoneVisit(at, to))
    ensures LoneVisitIn(Run(cfg, LoneVisit(at, to)), at, to)
  {
    hide Recorded, Quiet, EventIn, Run, Ticked, Credit;
    VisitIsSafe(at);
    StartIsQuiet(cfg);
    var a0 := [Tick(at)];
    var a1 := a0 + Delivery(Visit(at));
    assert [] + a0 == a0;
    RunAppend(cfg, [], Tick(at));
    QuietAppend(cfg, [], Tick(at));
    FirstTick(at);
    Delivered(Home(), cfg, a0, Visit(at));
    KeptCredited(Run(cfg, a0).kept, Visit(at), Path("a"));
    KeptThroughTick(Home(), cfg, a1, to, Path("a"), Visit(at));
    RunAppend(cfg, a1, Tick(to));
    TickFrame(Run(cfg, a1), to);
    QuietAppend(cfg, a1, Tick(to));
  }

  lemma TickFrame(s: State, to: Time)
    requires s.now <= to && s.cleaner.Idle?
    ensures var s' := Ticked(s, to);
      s'.now == to && s'.queue == s.queue && s'.held == s.held && s'.log == s.log && s'.cleaner == Idle && s'.raced == s.raced
  {}

  lemma FirstTick(to: Time)
    ensures Ticked(Start, to) == Start.(now := to)
  {}

  // The cleaner's three steps on the path "a".
  function CleanPath(): seq<Action> {
    [ReadCount("stats::a"), ReadHours, Delete]
  }

  // No bucket later than `hour` is left for an event kept for "a".
  ghost predicate NoLater(s: State, hour: nat) {
    forall e :: e in Of(s.kept, Path("a")) ==>
      HourBucket(e.now) <= hour || FormatInt(HourBucket(e.now)) !in Fields(Fetch(s.db, Name(Hours(Path("a")))))
  }

  lemma LatestAtMost(fields: map<string, int>, now: Time, hour: nat)
    requires forall f :: f in fields ==> HourField(f, now)
    requires forall h :: h > hour ==> FormatInt(h) !in fields
    ensures LatestHour(fields) <= hour
  {}

  // What the store then holds for "a".
  lemma OnlyHours(cfg: Config, s: State, hour: nat)
    requires Inv(Home(), cfg, s) && Of(s.kept, Path("a")) != [] && NoLater(s, hour)
    ensures Fields(Fetch(s.db, "stats::a")) == map["count" := |Of(s.kept, Path("a"))|]
    ensures LatestHour(Fields(Fetch(s.db, Name(Hours(Path("a")))))) <= hour
  {
    hide KeysOk, IndexOk, LinkOk, SightOk, EventsOk, CleanerOk, ParseInt, FormatInt, Tally;
    var sub, kept := Path("a"), Of(s.kept, Path("a"));
    VisitIsSafe(0);
    assert Name(Main(sub)) == "stats::a";
    PlainIsSteady(sub);
    assert SubjectOk(PatientConfig(cfg), s, sub);
    SteadyCount(PatientConfig(cfg), s, sub);
    var hours := Fetch(s.db, Name(Hours(sub)));
    forall h | h > hour ensures FormatInt(h) !in Fields(hours) {
      if FormatInt(h) in Fields(hours) {
        assert 1 <= Bucket(hours, h) <= Tally(kept, h);
        TallyHasEvent(kept, h);
      }
    }
    LatestAtMost(Fields(hours), s.now, hour);
  }

  // Once the latest bucket of "a" is too long ago, the cleaner turns on it.
  lemma Verdict(cfg: Config, s: State, hour: nat)
    requires Inv(Home(), cfg, s) && s.cleaner.Idle? && Of(s.kept, Path("a")) != [] && NoLater(s, hour)
    requires |Of(s.kept, Path("a"))| < cfg.minCount && s.now - hour * HOUR > cfg.inactive
    ensures Step(cfg, s, ReadCount("stats::a")) == s.(cleaner := Counted("a"))
    ensures Step(cfg, s.(cleaner := Counted("a")), ReadHours) == s.(cleaner := Doomed("a", |Of(s.kept, Path("a"))|))
  {
    hide Inv, LatestHour, Name, IsMainKey, NoLater;
    OnlyHours(cfg, s, hour);
    MainKeyOfA();
  }

  lemma MainKeyOfA()
    ensures IsMainKey("stats::a") && TrimPrefix("stats::a", "stats::") == "a" && Name(Main(Path("a"))) == "stats::a"
  {}

  // The 48-hour histogram of a path, for a reader with the clock reading `at`, is the list of recorded
  // events.
  ghost predicate ExactFor(cfg: Config, actions: seq<Action>, path: string, at: Time) {
    var s := Run(cfg, actions);
    forall i :: 0 <= i < WINDOW_HOURS ==>
      ReadSubject(s.db, Path(path), at).hourly[i] == Recordings(s, Path(path), FirstHour(at) + i)
  }

  ghost predicate ExactAt(cfg: Config, actions: seq<Action>, path: string) {
    ExactFor(cfg, actions, path, Run(cfg, actions).now)
  }

  lemma ImpatientLoses(cfg: Config)
    requires cfg.capacity >= 1 && cfg.workers >= 1 && !PatientConfig(cfg)
    ensures var actions := LoneVisit(0, TTL - 1) + CleanPath();
      RunsIn(Home(), actions) && Quiet(cfg, actions) && !ExactAt(cfg, actions, "a")
  {
    hide Run, Quiet, Inv, Step, PathDeleted, ReadSubject, About, EventIn, LoneVisit, ExactAt, Recordings;
    var a0 := LoneVisit(0, TTL - 1);
    var a1 := a0 + [ReadCount("stats::a")];
    var a2 := a1 + [ReadHours];
    var actions := a2 + [Delete];
    assert a0 + CleanPath() == actions;
    LoneVisitState(cfg, 0, TTL - 1);
    RunKeeps(Home(), cfg, a0);
    Verdict(cfg, Run(cfg, a0), 0);
    RunAppend(cfg, a0, ReadCount("stats::a"));
    RunAppend(cfg, a1, ReadHours);
    RunAppend(cfg, a2, Delete);
    QuietAppend(cfg, a0, ReadCount("stats::a"));
    QuietAppend(cfg, a1, ReadHours);
    QuietAppend(cfg, a2, Delete);
    DeleteStep(cfg, Run(cfg, a2));
    DeletedSlot(cfg, actions, Run(cfg, a2));
    VisitMissing(cfg, actions);
  }

  // A report that does not show the only visit, still in the oldest hour of the window.
  lemma VisitMissing(cfg: Config, actions: seq<Action>)
    requires var s := Run(cfg, actions);
      s.now == TTL - 1 && s.log == [Visit(0)] && ReadSubject(s.db, Path("a"), s.now).hourly[0] == 0
    ensures !ExactAt(cfg, actions, "a")
  {
    hide Run, ReadSubject, About, Tally;
    var s := Run(cfg, actions);
    TallyOfOne(Visit(0), Path("a"));
    assert FirstHour(s.now) + 0 == HourBucket(Visit(0).now);
    assert Recordings(s, Path("a"), FirstHour(s.now) + 0) == 1;
  }

  lemma TallyOfOne(e: Event, sub: Subject)
    requires Concerns(e, sub)
    ensures About([e], sub) == [e] && Tally([e], HourBucket(e.now)) == 1
  {}

  // Right after the deletion every slot of "a" is empty.
  lemma DeletedSlot(cfg: Config, actions: seq<Action>, before: State)
    requires before.cleaner.Doomed? && before.cleaner.path == "a"
    requires before.cleaner.seen <= |Of(before.kept, Path("a"))|
    requires RunsIn(Home(), actions) && Run(cfg, actions) == PathDeleted(before)
    ensures var s := Run(cfg, actions);
      s.now == before.now && s.log == before.log && Of(s.kept, Path("a")) == []
      && Of(s.raced, Path("a")) == Of(before.raced, Path("a")) + Of(before.kept, Path("a"))[before.cleaner.seen..]
    ensures forall i :: 0 <= i < WINDOW_HOURS ==>
      ReadSubject(Run(cfg, actions).db, Path("a"), before.now).hourly[i] == 0
  {
    hide Run, ReadSubject, DeletedPath;
    VisitIsSafe(0);
    forall i | 0 <= i < WINDOW_HOURS ensures ReadSubject(Run(cfg, actions).db, Path("a"), before.now).hourly[i] == 0 {
      SlotIsBucket(Home(), cfg, actions, Path("a"), before.now, i);
    }
  }

  /** Deletion is safe exactly for the patient configurations: over all quiet runs the histogram of
      every path is exact if and only if the cleaner deletes nothing (a minimum count of at most one)
      or waits for at least 48 hours, less one clock tick. */
  lemma PatienceIsExact(cfg: Config)
    requires cfg.capacity >= 1 && cfg.workers >= 1
    ensures PatientConfig(cfg) <==>
      forall w, actions, path :: RunsIn(w, actions) && Quiet(cfg, actions) && Path(path) in w ==> ExactAt(cfg, actions, path)
  {
    if PatientConfig(cfg) {
      forall w, actions, path | RunsIn(w, actions) && Quiet(cfg, actions) && Path(path) in w ensures ExactAt(cfg, actions, path) {
        PatientIsExact(w, cfg, actions, path);
      }
    } else {
      ImpatientLoses(cfg);
      VisitIsSafe(0);
    }
  }

  lemma PatientIsExact(w: World, cfg: Config, actions: seq<Action>, path: string)
    requires PatientConfig(cfg) && RunsIn(w, actions) && Quiet(cfg, actions) && Path(path) in w
    ensures ExactAt(cfg, actions, path)
  {
    hide Run, Quiet;
    EarlierReaderIsExact(w, cfg, actions, path, Run(cfg, actions).now);
  }

  // ------------------------------------------------------------ a reader from an earlier hour

  // No hour that can hold events has left the reader's window by the time the read is served.
  predicate WindowIntact(at: Time, served: Time) {
    FirstHour(served) <= 0 || FirstHour(served) <= FirstHour(at)
  }

  lemma EarlierReaderIsExact(w: World, cfg: Config, actions: seq<Action>, path: string, at: Time)
    requires PatientConfig(cfg) && RunsIn(w, actions) && Quiet(cfg, actions) && Path(path) in w
    requires WindowIntact(at, Run(cfg, actions).now)
    ensures ExactFor(cfg, actions, path, at)
  {
    hide Run, Quiet, ReadSubject, About, RunsIn;
    var s := Run(cfg, actions);
    QuietLosesNothing(cfg, actions);
    forall i | 0 <= i < WINDOW_HOURS
      ensures ReadSubject(s.db, Path(path), at).hourly[i] == Recordings(s, Path(path), FirstHour(at) + i)
    {
      HistogramIsEventList(w, cfg, actions, Path(path), at, i);
      if FirstHour(at) + i < 0 {
        NothingBeforeTheEpoch(About(s.log, Path(path)), FirstHour(at) + i);
      }
    }
  }

  lemma NothingBeforeTheEpoch(events: seq<Event>, hour: int)
    requires hour < 0
    ensures Tally(events, hour) == 0
  {
    hide HourBucket;
    forall e | e in events ensures 0 <= HourBucket(e.now) <= Latest(events) {
      LatestBounds(events, e);
    }
    TallyWithin(events, hour, 0, Latest(events));
  }

  function Latest(events: seq<Event>): nat {
    if events == [] then 0
    else
      var h, rest := HourBucket(events[|events| - 1].now), Latest(events[..|events| - 1]);
      if h > rest then h else rest
  }

  lemma {:induction false} LatestBounds(events: seq<Event>, e: Event)
    requires e in events
    ensures HourBucket(e.now) <= Latest(events)
  {
    hide HourBucket;
    assert events == events[..|events| - 1] + [events[|events| - 1]];
    if e != events[|events| - 1] {
      LatestBounds(events[..|events| - 1], e);
    }
  }

  lemma BucketOf(hour: nat, d: nat)
    requires d < HOUR
    ensures HourBucket(hour * HOUR + d) == hour
  {}

  // After a lone visit and 48 hours more its keys have expired.
  lemma ExpiredVisitState(cfg: Config, at: Time, to: Time)
    requires cfg.capacity >= 1 && cfg.workers >= 1 && at + TTL <= to
    ensures RunsIn(Home(), LoneVisit(at, to)) && Quiet(cfg, LoneVisit(at, to))
    ensures var s := Run(cfg, LoneVisit(at, to));
      s.now == to && s.log == [Visit(at)] && Of(s.kept, Path("a")) == []
  {
    hide Recorded, Quiet, EventIn, Run, Ticked, Credit, Renew;
    VisitIsSafe(at);
    StartIsQuiet(cfg);
    var a0 := [Tick(at)];
    var a1 := a0 + Delivery(Visit(at));
    assert [] + a0 == a0;
    RunAppend(cfg, [], Tick(at));
    QuietAppend(cfg, [], Tick(at));
    FirstTick(at);
    Delivered(Home(), cfg, a0, Visit(at));
    UntilRenewed(Run(cfg, a0).until, Visit(at), at + TTL, Path("a"));
    KeptTicked(Run(cfg, a1), to, Path("a"));
    RunAppend(cfg, a1, Tick(to));
    TickFrame(Run(cfg, a1), to);
    QuietAppend(cfg, a1, Tick(to));
  }

  // An event of an hour that has left the window is gone, though the reader still asks for its hour.
  lemma EarlierReaderLoses(cfg: Config, at: Time, served: Time)
    requires cfg.capacity >= 1 && cfg.workers >= 1 && at <= served && !WindowIntact(at, served)
    ensures exists actions ::
      RunsIn(Home(), actions) && Quiet(cfg, actions) && Run(cfg, actions).now == served && !ExactFor(cfg, actions, "a", at)
  {
    hide Run, Quiet, ReadSubject, About, RunsIn, LoneVisit, HourBucket, Tally;
    var h: nat := if FirstHour(at) < 0 then 0 else FirstHour(at);
    var start := h * HOUR;
    BucketOf(h, 0);
    LeftTheWindow(h, served);
    var actions := LoneVisit(start, served);
    ExpiredVisitState(cfg, start, served);
    VisitIsSafe(start);
    SlotIsBucket(Home(), cfg, actions, Path("a"), at, h - FirstHour(at));
    TallyOfOne(Visit(start), Path("a"));
    NoTally(h);
    assert ReadSubject(Run(cfg, actions).db, Path("a"), at).hourly[h - FirstHour(at)]
      != Recordings(Run(cfg, actions), Path("a"), FirstHour(at) + (h - FirstHour(at)));
  }

  lemma NoTally(h: int)
    ensures Tally([], h) == 0
  {}

  lemma LeftTheWindow(hour: nat, served: Time)
    requires hour < FirstHour(served)
    ensures hour * HOUR + TTL <= served
  {}

  /** A patient cleaner's readers are exact over all quiet runs if and only if no hour that can hold
      events has left the reader's window between its clock reading and the read: then either the hour
      has not ticked, or the first 48 hours of all time are not over. */
  lemma ReaderIsExact(cfg: Config, at: Time, served: Time)
    requires cfg.capacity >= 1 && cfg.workers >= 1 && PatientConfig(cfg) && at <= served
    ensures WindowIntact(at, served) <==>
      forall w, actions, path :: RunsIn(w, actions) && Quiet(cfg, actions) && Run(cfg, actions).now == served && Path(path) in w
        ==> ExactFor(cfg, actions, path, at)
  {
    hide Run, Quiet, ExactFor, RunsIn;
    if WindowIntact(at, served) {
      forall w, actions, path | RunsIn(w, actions) && Quiet(cfg, actions) && Run(cfg, actions).now == served && Path(path) in w
        ensures ExactFor(cfg, actions, path, at)
      {
        EarlierReaderIsExact(w, cfg, actions, path, at);
      }
    } else {
      EarlierReaderLoses(cfg, at, served);
    }
  }

  // ------------------------------------------------------------ a write that races a deletion

  // A visit of hour 0 is written when it is already too long ago; the cleaner condemns its path; a new
  // visit is written, and only then comes the deletion.
  function RacingRun(now: Time): seq<Action> {
    [Tick(now)] + Delivery(Visit(0)) + [ReadCount("stats::a")] + [ReadHours] + Delivery(Visit(now)) + [Delete]
  }

  // The state just before the deletion: both visits kept, only the first one seen.
  lemma RacingState(cfg: Config, now: Time, before: seq<Action>)
    requires cfg.capacity >= 1 && cfg.workers >= 1 && cfg.minCount >= 2 && now > cfg.inactive
    requires RacingRun(now) == before + [Delete]
    ensures RunsIn(Home(), before)
    ensures var s := Run(cfg, before);
      && s.now == now && s.cleaner == Doomed("a", 1) && s.log == [Visit(0), Visit(now)]
      && Of(s.kept, Path("a")) == [Visit(0), Visit(now)] && s.raced == map[]
  {
    hide Run, Inv, Ticked, Recorded, EventIn, Quiet, Credit, Renew, HourBucket, Step;
    var e0, e1, sub := Visit(0), Visit(now), Path("a");
    VisitIsSafe(0);
    VisitIsSafe(now);
    StartIsQuiet(cfg);
    var a1 := [Tick(now)];
    var a2 := a1 + Delivery(e0);
    var a3 := a2 + [ReadCount("stats::a")];
    var a4 := a3 + [ReadHours];
    assert before == (before + [Delete])[..|before|] == a4 + Delivery(e1);
    assert [] + a1 == a1;
    RunAppend(cfg, [], Tick(now));
    FirstTick(now);
    TickStep(cfg, Start, now);
    Delivered(Home(), cfg, a1, e0);
    KeptCredited(Run(cfg, a1).kept, e0, sub);
    RunKeeps(Home(), cfg, a2);
    BucketOf(0, 0);
    Verdict(cfg, Run(cfg, a2), 0);
    RunAppend(cfg, a2, ReadCount("stats::a"));
    RunAppend(cfg, a3, ReadHours);
    Delivered(Home(), cfg, a4, e1);
    KeptCredited(Run(cfg, a4).kept, e1, sub);
    assert [e0] + [e1] == [e0, e1];
  }

  lemma TickStep(cfg: Config, s: State, to: Time)
    requires s.now <= to
    ensures Step(cfg, s, Tick(to)) == Ticked(s, to)
  {}

  /** Patience alone is not enough, for any cleaner that deletes anything: it decides and deletes in
      separate commands, and an event recorded in between is deleted with the rest. */
  lemma RaceLosesEvent(cfg: Config)
    requires cfg.capacity >= 1 && cfg.workers >= 1 && cfg.minCount >= 2 && cfg.inactive >= TTL - 1
    ensures var actions := RacingRun(cfg.inactive + 1);
      var s := Run(cfg, actions);
      RunsIn(Home(), actions) && !ExactAt(cfg, actions, "a") && Lost(s, Path("a"), HourBucket(s.now)) == 1
  {
    hide Run, Step, PathDeleted, ReadSubject, EventIn, About, Tally, HourBucket;
    var now: nat := cfg.inactive + 1;
    var e0, e1, sub, actions := Visit(0), Visit(now), Path("a"), RacingRun(now);
    var before := actions[..|actions| - 1];
    assert actions == before + [Delete];
    RacingState(cfg, now, before);
    RunAppend(cfg, before, Delete);
    DeleteStep(cfg, Run(cfg, before));
    DeletedSlot(cfg, actions, Run(cfg, before));
    assert [e0, e1][1..] == [e1];
    HoursApart(now);
    RacedTally(e0, e1, sub);
    var s := Run(cfg, actions);
    assert FirstHour(s.now) + 47 == HourBucket(e1.now);
    assert Recordings(s, sub, FirstHour(s.now) + 47) == 1;
    assert ReadSubject(s.db, sub, s.now).hourly[47] == 0;
  }

  lemma HoursApart(now: Time)
    requires now >= TTL
    ensures HourBucket(0) != HourBucket(now)
  {}

  /** So without an assumption on races the histograms are exact, over all runs, if and only if the cleaner
      deletes nothing. */
  lemma DeletionIsUnsafe(cfg: Config)
    requires cfg.capacity >= 1 && cfg.workers >= 1
    ensures cfg.minCount <= 1 <==>
      forall w, actions, path :: RunsIn(w, actions) && Path(path) in w ==> ExactAt(cfg, actions, path)
  {
    hide Run, RunsIn, ExactAt;
    VisitIsSafe(0);
    if cfg.minCount <= 1 {
      forall w, actions, path | RunsIn(w, actions) && Path(path) in w ensures ExactAt(cfg, actions, path) {
        NeverDoomed(w, cfg, actions);
        PatientIsExact(w, cfg, actions, path);
      }
    } else if cfg.inactive >= TTL - 1 {
      RaceLosesEvent(cfg);
    } else {
      ImpatientLoses(cfg);
    }
  }

  // A cleaner that deletes nothing never gets to a verdict.
  lemma NeverDoomed(w: World, cfg: Config, actions: seq<Action>)
    requires RunsIn(w, actions) && cfg.minCount <= 1
    ensures Quiet(cfg, actions)
  {
    hide Run, Inv;
    forall k | 0 <= k < |actions| ensures QuietAt(Run(cfg, actions[..k]), actions[k]) {
      assert RunsIn(w, actions[..k]);
      RunKeeps(w, cfg, actions[..k]);
      IdleCleaner(w, cfg, Run(cfg, actions[..k]));
    }
  }

  lemma IdleCleaner(w: World, cfg: Config, s: State)
    requires Inv(w, cfg, s) && cfg.minCount <= 1
    ensures s.cleaner.Idle?
  {
    hide StoreOk, EventsOk;
  }

  lemma RacedTally(e0: Event, e1: Event, sub: Subject)
    requires Concerns(e0, sub) && Concerns(e1, sub) && HourBucket(e0.now) != HourBucket(e1.now)
    ensures About([e0, e1], sub) == [e0, e1]
    ensures Tally([e0, e1], HourBucket(e1.now)) == 1 && Tally([] + [e1], HourBucket(e1.now)) == 1
  {
    TallyOfOne(e0, sub);
    TallyOfOne(e1, sub);
    assert [e0] + [e1] == [e0, e1] && [] + [e1] == [e1];
    AboutAppend([e0], e1, sub);
    TallyAppend([e0], e1, HourBucket(e1.now));
    TallyAppend([], e0, HourBucket(e1.now));
    assert [] + [e0] == [e0];
  }

  // ------------------------------------------------------------ readers and token order

  function StaleRun(hour: nat): seq<Action> {
    LoneVisit(hour * HOUR + 5, (hour + 48) * HOUR) + Delivery(Visit((hour + 48) * HOUR))
  }

  /** Nor is it the expiry alone that takes the hour away. In any hour: a reader that took its clock
      reading in the last hour of an event's window, and is served as the next hour begins, misses the
      event although its keys are alive; the newer write has removed its bucket. */
  lemma StaleReaderLosesBucket(cfg: Config, hour: nat, at: Time)
    requires cfg.capacity >= 1 && cfg.workers >= 1 && HourBucket(at) == hour + 47
    ensures RunsIn(Home(), StaleRun(hour)) && Quiet(cfg, StaleRun(hour))
    ensures var s := Run(cfg, StaleRun(hour));
      && at <= s.now && Of(s.kept, Path("a")) == s.log && Lost(s, Path("a"), FirstHour(at)) == 0
      && Recordings(s, Path("a"), FirstHour(at)) == 1
      && ReadSubject(s.db, Path("a"), at).hourly[0] == 0
  {
    hide Run, Inv, ReadSubject, Ticked, Recorded, EventIn, Quiet, Credit, Renew, LoneVisit, About, Bucket, HourBucket, Tally;
    var t0, t1 := hour * HOUR + 5, (hour + 48) * HOUR;
    var e0, e1, sub := Visit(t0), Visit(t1), Path("a");
    VisitIsSafe(t0);
    VisitIsSafe(t1);
    BucketOf(hour, 5);
    BucketOf(hour + 48, 0);
    ReaderBefore(at, hour);
    var a2 := LoneVisit(t0, t1);
    var actions := a2 + Delivery(e1);
    LoneVisitState(cfg, t0, t1);
    Delivered(Home(), cfg, a2, e1);
    KeptCredited(Run(cfg, a2).kept, e1, sub);
    assert [e0] + [e1] == [e0, e1];
    TallyOrder(e0, e1, sub);
    NoTally(hour);
    SlotIsBucket(Home(), cfg, actions, sub, at, 0);
    StaleFieldGone(Home(), cfg, a2, e1, sub);
  }

  lemma ReaderBefore(at: Time, hour: nat)
    requires HourBucket(at) == hour + 47
    ensures at <= (hour + 48) * HOUR
  {}

  lemma TallyOrder(e0: Event, e1: Event, sub: Subject)
    requires Concerns(e0, sub) && Concerns(e1, sub) && HourBucket(e0.now) != HourBucket(e1.now)
    ensures Tally(About([e0, e1], sub), HourBucket(e0.now)) == 1
  {
    RacedTally(e0, e1, sub);
    TallyOfOne(e0, sub);
    assert [e0] + [e1] == [e0, e1];
    TallyAppend([e0], e1, HourBucket(e0.now));
  }

  // A write removes the bucket 48 hours before its own.
  lemma StaleFieldGone(w: World, cfg: Config, actions: seq<Action>, e: Event, sub: Subject)
    requires RunsIn(w, actions) && EventIn(w, e) && sub in w && Concerns(e, sub)
    ensures var s := Run(cfg, actions);
      Bucket(Fetch(Recorded(s.db, e, s.now), Name(Hours(sub))), HourBucket(e.now) - WINDOW_HOURS) == 0
  {
    hide Run, Name, Recorded, SightOk, LinkOk;
    var s := Run(cfg, actions);
    SubjectHolds(w, cfg, actions, sub);
    RecordedAt(w, s.db, e, s.now, Hours(sub));
    BucketBumped(Fetch(s.db, Name(Hours(sub))), e, s.now, HourBucket(e.now) - WINDOW_HOURS);
  }

  function TokenVisit(now: Time): Event {
    Event("a", TOKEN, "192.0.2.1", "agent", now)
  }

  // Two workers write two visits two seconds apart in the wrong order.
  function ReorderedRun(): seq<Action> {
    [Tick(HOUR)] + Delivery(TokenVisit(HOUR)) + Delivery(TokenVisit(HOUR - 2 * NANOS)) + [Tick(49 * HOUR - 1)]
  }

  /** Without timestamp order the token side need not balance: after a two-second reordering, the
      token's later visit is still in the hour window at the end of its 48th hour, but the token has
      left the index, so the reported counts fall short of the recorded events. */
  lemma ReorderedTokenVanishes(cfg: Config)
    requires cfg.capacity >= 1 && cfg.workers >= 1
    ensures var s := Run(cfg, ReorderedRun());
      && FairReading(Home(), cfg, ReorderedRun(), s.now, Tokens)
      && TOKEN !in ListedTokens(s.db, s.now)
      && SumSet(ListedTokens(s.db, s.now), Counts(s.db, Tokens, s.now)) <
        NamedCount(s.log, Tokens, FirstHour(s.now), FirstHour(s.now) + WINDOW_HOURS)
  {
    hide Run, Inv, ReadSubject, Ticked, Recorded, EventIn, Quiet, Credit, ListedTokens, NamedCount, Labelled;
    var e0, e1 := TokenVisit(HOUR), TokenVisit(HOUR - 2 * NANOS);
    TokenVisitIsSafe(HOUR);
    TokenVisitIsSafe(HOUR - 2 * NANOS);
    var a0 := [Tick(HOUR)];
    var a1 := a0 + Delivery(e0);
    var a2 := a1 + Delivery(e1);
    var actions := a2 + [Tick(49 * HOUR - 1)];
    assert ReorderedRun() == actions;
    StartIsQuiet(cfg);
    assert [] + a0 == a0;
    RunAppend(cfg, [], Tick(HOUR));
    QuietAppend(cfg, [], Tick(HOUR));
    FirstTick(HOUR);
    Delivered(Home(), cfg, a0, e0);
    Delivered(Home(), cfg, a1, e1);
    RunAppend(cfg, a2, Tick(49 * HOUR - 1));
    QuietAppend(cfg, a2, Tick(49 * HOUR - 1));
    TickFrame(Run(cfg, a2), 49 * HOUR - 1);
    var s := Run(cfg, actions);
    assert s.log == [e0, e1];
    assert [e0] + [e1] == [e0, e1];
    LastSeenAppend([e0], e1, ByToken, TOKEN);
    TokenListing(Home(), cfg, actions, TOKEN, s.now);
    ListedTokensAddUp(Home(), cfg, actions, s.now);
    assert e0 in s.log && Named(e0, Tokens, FirstHour(s.now), FirstHour(s.now) + WINDOW_HOURS);
  }

  lemma TokenVisitIsSafe(now: Time)
    ensures EventIn(Home(), TokenVisit(now))
  {}

  // ------------------------------------------------------------ shadowed paths

  /** pathStats reports a path without "::" exactly when its own key was scanned and the path is not
      spelled like a key suffix: "/ips", "/uas", "/hours" and "/paths" are recorded but never shown. */
  lemma ShadowedPathIsInvisible(keys: seq<string>, p: string)
    requires forall i :: 0 <= i < |keys| ==> HasPrefix(keys[i], "stats::")
    requires !HasDoubleColon(p)
    ensures p in ListedPaths(keys) <==> Name(Main(Path(p))) in keys && !Shadowed(p)
  {
    hide Shadowed, IsMainKey;
    ListedPath(p);
    TrimJoined("stats::", p);
    forall i | 0 <= i < |keys| && TrimPrefix(keys[i], "stats::") == p ensures keys[i] == Name(Main(Path(p))) {
      assert keys[i] == keys[i][..7] + keys[i][7..];
    }
  }

  /** Worse, for some subjects the cleaner takes the counter hash for an hour hash and removes the running
      count: exactly for those whose main key ends in "::hours"; among the paths without "::" and the
      valid tokens, by StatKeys.PlainIsSteady, for "hours" and ":hours". */
  lemma CounterIsPruned(db: Db, sub: Subject, at: Time)
    requires var slot := Fetch(db, Name(Main(sub))); slot.Some? && slot.value.value.Hash? && "count" in Fields(slot)
    ensures "count" in Fields(Fetch(Cleaned(db, Name(Main(sub)), at), Name(Main(sub)))) <==> Steady(sub)
  {
    hide Name, HasSuffix;
    CountIsNoHour();
    assert "count" in StaleFields(Fields(Fetch(db, Name(Main(sub)))), FirstHour(at));
  }

  // One event and one pass of the window cleaner over the counter hash.
  function PrunedRun(sub: Subject, e: Event): seq<Action> {
    Delivery(e) + [CleanWindow(Name(Main(sub)), 0)]
  }

  lemma PrunedCount(w: World, cfg: Config, sub: Subject, e: Event)
    requires cfg.capacity >= 1 && cfg.workers >= 1 && sub in w && !Steady(sub)
    requires EventIn(w, e) && Concerns(e, sub) && e.now == 0
    ensures RunsIn(w, PrunedRun(sub, e))
    ensures var report := ReadSubject(Run(cfg, PrunedRun(sub, e)).db, sub, 0); report.count == 0 && report.count48h == 1
  {
    hide Run, Name, Steady, EventIn, Recorded, Credit, Renew, Cleaned, ReadSubject, SumSeq, Between, Tally, Quiet;
    var actions := PrunedRun(sub, e);
    StartIsQuiet(cfg);
    assert [] + Delivery(e) == Delivery(e);
    Delivered(w, cfg, [], e);
    RunAppend(cfg, Delivery(e), CleanWindow(Name(Main(sub)), 0));
    RecordedAt(w, map[], e, 0, Main(sub));
    CounterIsPruned(Recorded(map[], e, 0), sub, 0);
    ReportCount(Run(cfg, actions).db, sub);
    KeptCredited(map[], e, sub);
    var hourly := ReadSubject(Run(cfg, actions).db, sub, 0).hourly;
    ReportShape(Run(cfg, actions).db, sub, 0);
    assert [] + [e] == [e];
    forall i | 0 <= i < WINDOW_HOURS ensures hourly[i] == Tally([e], FirstHour(0) + i) {
      SlotIsBucket(w, cfg, actions, sub, 0, i);
    }
    SlotsAddUp(hourly, [e], FirstHour(0));
    BetweenAppend([], e, FirstHour(0), FirstHour(0) + WINDOW_HOURS);
    NothingBetween([], FirstHour(0), FirstHour(0) + WINDOW_HOURS);
  }

  lemma ReportCount(db: Db, sub: Subject)
    ensures var fields := Fields(Fetch(db, Name(Main(sub)))); "count" !in fields ==> ReadSubject(db, sub, 0).count == 0
  {
    hide Name, Histogram;
  }

  // In a world without paths there are no events at all.
  lemma NoPathsNoCounts(w: World, cfg: Config, actions: seq<Action>, sub: Subject, at: Time)
    requires RunsIn(w, actions) && sub in w && forall p :: Path(p) !in w
    ensures var report := ReadSubject(Run(cfg, actions).db, sub, at); report.count48h == report.count == 0
  {
    hide Run, Name, ReadSubject, SumSeq, RunsIn, Tally, HoursOk, SightOk, MainOk;
    var s := Run(cfg, actions);
    SubjectHolds(w, cfg, actions, sub);
    if Of(s.kept, sub) != [] {
      var e := Of(s.kept, sub)[0];
      assert e in s.log;
      LogIsSafe(w, cfg, actions, e);
    }
    EmptyReport(s.db, sub, at);
    ReportShape(s.db, sub, at);
    forall i | 0 <= i < WINDOW_HOURS ensures ReadSubject(s.db, sub, at).hourly[i] == 0 {
      SlotIsBucket(w, cfg, actions, sub, at, i);
      NoTally(FirstHour(at) + i);
    }
    SumSeqZero(ReadSubject(s.db, sub, at).hourly);
  }

  lemma EmptyReport(db: Db, sub: Subject, at: Time)
    requires Fetch(db, Name(Main(sub))).None?
    ensures ReadSubject(db, sub, at).count == 0
  {
    hide Name, Histogram;
  }

  ghost predicate WithinCount(cfg: Config, actions: seq<Action>, sub: Subject, at: Time) {
    var report := ReadSubject(Run(cfg, actions).db, sub, at);
    0 <= report.count48h <= report.count
  }

  /** So over all runs of a world the 48-hour count of a path or token stays within its running count if and
      only if its counter is not taken for an hour hash (or the world has no path, and so no events). */
  lemma WithinCountExactly(w: World, cfg: Config, sub: Subject)
    requires cfg.capacity >= 1 && cfg.workers >= 1 && sub in w
    ensures Steady(sub) || (forall p :: Path(p) !in w) <==>
      forall actions, at :: RunsIn(w, actions) ==> WithinCount(cfg, actions, sub, at)
  {
    hide Run, RunsIn, Steady, ReadSubject, Name;
    if Steady(sub) {
      forall actions, at | RunsIn(w, actions) ensures WithinCount(cfg, actions, sub, at) {
        WindowWithinCount(w, cfg, actions, sub, at);
      }
    } else if p :| Path(p) in w {
      var e := match sub case Path(q) => Event(q, "", "192.0.2.1", "agent", 0) case Token(t) => Event(p, t, "192.0.2.1", "agent", 0);
      EmptyTokenIsSteady();
      PrunedCount(w, cfg, sub, e);
      assert !WithinCount(cfg, PrunedRun(sub, e), sub, 0);
    } else {
      forall actions, at | RunsIn(w, actions) ensures WithinCount(cfg, actions, sub, at) {
        NoPathsNoCounts(w, cfg, actions, sub, at);
      }
    }
  }

  lemma EmptyTokenIsSteady()
    ensures Steady(Token(""))
  {
    SuffixChars("stats::token::", "::hours");
    assert Name(Main(Token(""))) == "stats::token::";
  }

  lemma CountIsNoHour()
    ensures ParseInt("count") == None
  {}

  // ------------------------------------------------------------ an interrupted prune

  // After its count was read, an old visit of hour 0 is followed by a late one of the last hour before the
  // window, whose bucket a prune that had been interrupted then deletes.
  function InterruptedRun(hour: nat): seq<Action>
    requires hour >= 49
  {
    [Tick(hour * HOUR)] + Delivery(Visit(0)) + [ReadCount("stats::a")] + Delivery(Visit((hour - 47) * HOUR - 1))
      + [LateDrop(hour)]
  }

  function LateDrop(hour: nat): Action {
    DropStale(Name(Hours(Path("a"))), {FormatInt(hour - 48)}, hour * HOUR)
  }

  ghost predicate InterruptedIn(s: State, hour: nat)
    requires hour >= 49
  {
    var fields := Fields(Fetch(s.db, Name(Hours(Path("a")))));
    && s.now == hour * HOUR && s.cleaner == Counted("a")
    && s.log == [Visit(0), Visit((hour - 47) * HOUR - 1)] && Of(s.kept, Path("a")) == s.log
    && FormatInt(0) in fields && FormatInt(hour - 48) !in fields
  }

  lemma InterruptedState(cfg: Config, hour: nat)
    requires cfg.capacity >= 1 && cfg.workers >= 1 && cfg.minCount >= 2
    requires hour >= 49 && hour != 96 && hour * HOUR > cfg.inactive
    ensures RunsIn(Home(), InterruptedRun(hour)) && InterruptedIn(Run(cfg, InterruptedRun(hour)), hour)
  {
    hide Recorded, EventIn, Run, RunsIn, Name, Credit, Renew, HDel, Ticked, BumpHour, Inv, SubjectOk, Bucket, Tally, AllStale, Quiet, Step, HourBucket;
    var e0, e1, sub := Visit(0), Visit((hour - 47) * HOUR - 1), Path("a");
    VisitIsSafe(0);
    VisitIsSafe((hour - 47) * HOUR - 1);
    StartIsQuiet(cfg);
    var a0 := [Tick(hour * HOUR)];
    var a1 := a0 + Delivery(e0);
    var a2 := a1 + [ReadCount("stats::a")];
    var a3 := a2 + Delivery(e1);
    assert [] + a0 == a0;
    RunAppend(cfg, [], Tick(hour * HOUR));
    FirstTick(hour * HOUR);
    TickStep(cfg, Start, hour * HOUR);
    FirstTickInWorld(hour * HOUR);
    Delivered(Home(), cfg, a0, e0);
    KeptCredited(Run(cfg, a0).kept, e0, sub);
    BucketOf(0, 0);
    BucketOf(hour - 48, HOUR - 1);
    RunKeeps(Home(), cfg, a1);
    Verdict(cfg, Run(cfg, a1), 0);
    RunAppend(cfg, a1, ReadCount("stats::a"));
    ReadsInWorld(a1);
    Delivered(Home(), cfg, a2, e1);
    KeptCredited(Run(cfg, a2).kept, e1, sub);
    assert [e0] + [e1] == [e0, e1];
    BucketStruck(cfg, a0, e0, 0);
    BucketStays(cfg, a2, e1, 0);
    StaleDropped(cfg, a3, hour);
  }

  lemma FirstTickInWorld(to: Time)
    ensures RunsIn(Home(), [Tick(to)])
  {}

  // A delivered event has its bucket, and leaves every bucket but the one 48 hours before its own alone.
  lemma BucketStruck(cfg: Config, actions: seq<Action>, e: Event, hour: nat)
    requires RunsIn(Home(), actions) && EventIn(Home(), e) && e.path == "a" && HourBucket(e.now) == hour
    ensures var s := Run(cfg, actions); Bucket(Fetch(Recorded(s.db, e, s.now), Name(Hours(Path("a")))), hour) >= 1
  {
    hide Run, Name, Recorded, SightOk, MainOk, LinkOk, Bucket, BumpHour, Tally;
    var s := Run(cfg, actions);
    SubjectHolds(Home(), cfg, actions, Path("a"));
    RecordedAt(Home(), s.db, e, s.now, Hours(Path("a")));
    BucketBumped(Fetch(s.db, Name(Hours(Path("a")))), e, s.now, hour);
    NoBuckets(hour);
  }

  lemma BucketStays(cfg: Config, actions: seq<Action>, e: Event, hour: int)
    requires RunsIn(Home(), actions) && EventIn(Home(), e) && e.path == "a" && hour != HourBucket(e.now) - WINDOW_HOURS
    requires Bucket(Fetch(Run(cfg, actions).db, Name(Hours(Path("a")))), hour) >= 1
    ensures var s := Run(cfg, actions); Bucket(Fetch(Recorded(s.db, e, s.now), Name(Hours(Path("a")))), hour) >= 1
  {
    hide Run, Name, Recorded, SightOk, MainOk, LinkOk, Bucket, BumpHour, Tally;
    var s := Run(cfg, actions);
    SubjectHolds(Home(), cfg, actions, Path("a"));
    RecordedAt(Home(), s.db, e, s.now, Hours(Path("a")));
    BucketBumped(Fetch(s.db, Name(Hours(Path("a")))), e, s.now, hour);
  }

  lemma StaleDropped(cfg: Config, actions: seq<Action>, hour: nat)
    requires RunsIn(Home(), actions) && Run(cfg, actions).now == hour * HOUR && hour >= 49
    requires Bucket(Fetch(Run(cfg, actions).db, Name(Hours(Path("a")))), 0) >= 1
    ensures var s, s' := Run(cfg, actions), Run(cfg, actions + [LateDrop(hour)]);
      var fields := Fields(Fetch(s'.db, Name(Hours(Path("a")))));
      && RunsIn(Home(), actions + [LateDrop(hour)]) && s' == s.(db := s'.db)
      && FormatInt(0) in fields && FormatInt(hour - 48) !in fields
  {
    hide Run, Name, EventIn, FormatInt, ParseInt;
    RunAppend(cfg, actions, LateDrop(hour));
    HoursIsPruned(Path("a"));
    ParseInverse(hour - 48);
    ParseInverse(0);
    BucketOf(hour, 0);
  }

  // A condemned path has no buckets, or the event written last for it is older than `inactive` less an hour.
  ghost predicate OldEnough(cfg: Config, actions: seq<Action>) {
    var s := Run(cfg, actions);
    s.cleaner.Counted? && Step(cfg, s, ReadHours).cleaner.Doomed? ==>
      var events := About(s.log, Path(s.cleaner.path));
      || Fields(Fetch(s.db, Name(Hours(Path(s.cleaner.path))))) == map[]
      || (events != [] && events[|events| - 1].now < s.now - cfg.inactive + HOUR)
  }

  // With a threshold longer than 48 hours, the interrupted prune makes the cleaner take hour 0 for the last
  // one, and it condemns a path whose last written event is not old enough.
  lemma InterruptedPruneMisleads(cfg: Config, hour: nat)
    requires cfg.capacity >= 1 && cfg.workers >= 1 && cfg.minCount >= 2 && cfg.inactive > TTL
    requires hour >= 49 && hour != 96 && hour * HOUR > cfg.inactive
    ensures RunsIn(Home(), InterruptedRun(hour)) && !OldEnough(cfg, InterruptedRun(hour))
  {
    hide Run, RunsIn, InterruptedRun, Inv, LatestHour, Name, FormatInt, HourBucket, About, Step;
    var s := Run(cfg, InterruptedRun(hour));
    InterruptedState(cfg, hour);
    RunKeeps(Home(), cfg, InterruptedRun(hour));
    BucketOf(0, 0);
    BucketOf(hour - 48, HOUR - 1);
    assert NoLater(s, 0);
    Condemns(cfg, s, 0);
    LastOfTwo(Visit(0), Visit((hour - 47) * HOUR - 1), Path("a"));
  }

  lemma LastOfTwo(e0: Event, e1: Event, sub: Subject)
    requires Concerns(e0, sub) && Concerns(e1, sub)
    ensures About([e0, e1], sub) == [e0, e1]
  {
    AboutAppend([], e0, sub);
    AboutAppend([e0], e1, sub);
    assert [] + [e0] == [e0] && [e0] + [e1] == [e0, e1];
  }

  lemma Condemns(cfg: Config, s: State, hour: nat)
    requires Inv(Home(), cfg, s) && s.cleaner == Counted("a") && Of(s.kept, Path("a")) != [] && NoLater(s, hour)
    requires s.now - hour * HOUR > cfg.inactive
    ensures Step(cfg, s, ReadHours).cleaner.Doomed?
  {
    hide Inv, LatestHour, Name, NoLater;
    OnlyHours(cfg, s, hour);
  }

  lemma ShortThresholdIsOldEnough(w: World, cfg: Config, actions: seq<Action>)
    requires RunsIn(w, actions) && cfg.inactive <= TTL
    ensures OldEnough(cfg, actions)
  {
    hide Run, Step, GroupOk, RacedOk, Name, KeysOk, IndexOk, EventsOk, About, EndsWith, Balanced, HourBucket;
    var s := Run(cfg, actions);
    if s.cleaner.Counted? && Step(cfg, s, ReadHours).cleaner.Doomed? {
      var sub := Path(s.cleaner.path);
      RunKeeps(w, cfg, actions);
      SubjectHolds(w, cfg, actions, sub);
      BucketsNeedEvents(s.db, s.now, sub, Of(s.kept, sub), Until(s.until, sub));
      SameLast(About(s.log, sub), Of(s.kept, sub));
      if Of(s.kept, sub) != [] {
        var e := Of(s.kept, sub)[|Of(s.kept, sub)| - 1];
        if HourBucket(e.now) >= FirstHour(s.now) {
          VerdictIsJustified(w, cfg, actions, e);
        } else {
          OutsideIsOld(e.now, s.now);
        }
      }
    }
  }

  lemma OutsideIsOld(e: Time, now: Time)
    requires HourBucket(e) < FirstHour(now)
    ensures e < now - TTL + HOUR
  {}

  /** Over all runs, whatever the order of writing and however prunes are interrupted, every condemned
      path has no buckets or an old enough last event, if and only if the cleaner deletes nothing or its
      threshold is at most 48 hours. (For longer thresholds StatLimits.LastEventIsOld asks for prunes that
      are not interrupted.) */
  lemma OldEnoughExactly(cfg: Config)
    requires cfg.capacity >= 1 && cfg.workers >= 1
    ensures cfg.minCount <= 1 || cfg.inactive <= TTL <==> forall w, actions :: RunsIn(w, actions) ==> OldEnough(cfg, actions)
  {
    hide Run, RunsIn, OldEnough;
    if cfg.minCount <= 1 || cfg.inactive <= TTL {
      forall w, actions | RunsIn(w, actions) ensures OldEnough(cfg, actions) {
        if cfg.inactive <= TTL {
          ShortThresholdIsOldEnough(w, cfg, actions);
        } else {
          RunKeeps(w, cfg, actions);
          IdleCleaner(w, cfg, Run(cfg, actions));
          IdleIsOldEnough(cfg, actions);
        }
      }
    } else {
      var hour := cfg.inactive / HOUR + 1;
      InterruptedPruneMisleads(cfg, if hour == 96 then 97 else hour);
    }
  }

  lemma IdleIsOldEnough(cfg: Config, actions: seq<Action>)
    requires Run(cfg, actions).cleaner.Idle?
    ensures OldEnough(cfg, actions)
  {
    hide Run;
  }

  lemma ReadsInWorld(actions: seq<Action>)
    requires RunsIn(Home(), actions)
    ensures RunsIn(Home(), actions + [ReadCount("stats::a")])
  {
    hide EventIn;
  }

  // ------------------------------------------------------------ the largest hash

  const PRUNE := CleanWindow(Name(Hours(Path("a"))), 47 * HOUR)

  // One visit in every hour from the first on, and a prune right after the 48th.
  function Hourly(n: nat): seq<Action> {
    if n == 0 then []
    else Hourly(n - 1) + [Tick((n - 1) * HOUR)] + Delivery(Visit((n - 1) * HOUR)) + (if n == 48 then [PRUNE] else [])
  }

  // Late visits of the m hours before the k-th, the latest hour first.
  function LateVisits(k: nat, m: nat): seq<Action>
    requires m <= k
  {
    if m == 0 then [] else LateVisits(k, m - 1) + Delivery(Visit((k - m) * HOUR))
  }

  ghost predicate HourlyIn(s: State, n: nat) {
    && Drained(s) && s.now == (n - 1) * HOUR
    && forall h: nat :: h < n ==> Visit(h * HOUR) in Of(s.kept, Path("a"))
  }

  lemma Ticks(cfg: Config, actions: seq<Action>, n: nat)
    requires n >= 1 && RunsIn(Home(), actions) && if n == 1 then actions == [] else HourlyIn(Run(cfg, actions), n - 1)
    ensures RunsIn(Home(), actions + [Tick((n - 1) * HOUR)])
    ensures var s, s' := Run(cfg, actions), Run(cfg, actions + [Tick((n - 1) * HOUR)]);
      Drained(s') && s'.now == (n - 1) * HOUR && Of(s'.kept, Path("a")) == Of(s.kept, Path("a"))
  {
    hide Recorded, Credit, EventIn, Run, Purge;
    var to := (n - 1) * HOUR;
    RunAppend(cfg, actions, Tick(to));
    if n == 1 {
      StartIsQuiet(cfg);
      FirstTick(0);
    } else {
      KeptThroughTick(Home(), cfg, actions, to, Path("a"), Visit((n - 2) * HOUR));
    }
  }

  lemma Strikes(cfg: Config, actions: seq<Action>, n: nat)
    requires cfg.capacity >= 1 && cfg.workers >= 1 && n >= 1 && RunsIn(Home(), actions)
    requires if n == 1 then actions == [] else HourlyIn(Run(cfg, actions), n - 1)
    ensures var struck := actions + [Tick((n - 1) * HOUR)] + Delivery(Visit((n - 1) * HOUR));
      RunsIn(Home(), struck) && HourlyIn(Run(cfg, struck), n)
  {
    hide Recorded, Credit, Renew, EventIn, Run, RunsIn;
    var e := Visit((n - 1) * HOUR);
    Ticks(cfg, actions, n);
    VisitIsSafe((n - 1) * HOUR);
    Delivered(Home(), cfg, actions + [Tick((n - 1) * HOUR)], e);
    KeptCredited(Run(cfg, actions + [Tick((n - 1) * HOUR)]).kept, e, Path("a"));
    forall h: nat | h < n ensures Visit(h * HOUR) in Of(Run(cfg, actions + [Tick((n - 1) * HOUR)]).kept, Path("a")) + [e] {
      if h < n - 1 {
        assert Visit(h * HOUR) in Of(Run(cfg, actions).kept, Path("a"));
      }
    }
  }

  lemma {:induction false} HourlyState(cfg: Config, n: nat)
    requires cfg.capacity >= 1 && cfg.workers >= 1
    ensures RunsIn(Home(), Hourly(n)) && (n >= 1 ==> HourlyIn(Run(cfg, Hourly(n)), n))
  {
    hide EventIn, Run, HourlyIn, RunsIn;
    if n == 0 {
      StartIsQuiet(cfg);
    } else {
      HourlyState(cfg, n - 1);
      Strikes(cfg, Hourly(n - 1), n);
      var struck := Hourly(n - 1) + [Tick((n - 1) * HOUR)] + Delivery(Visit((n - 1) * HOUR));
      if n == 48 {
        PruneChangesNoHistory(cfg, struck, n);
      } else {
        assert struck + [] == struck;
      }
    }
  }

  lemma PruneChangesNoHistory(cfg: Config, actions: seq<Action>, n: nat)
    requires RunsIn(Home(), actions) && HourlyIn(Run(cfg, actions), n)
    ensures RunsIn(Home(), actions + [PRUNE]) && HourlyIn(Run(cfg, actions + [PRUNE]), n)
  {
    hide EventIn, Run, Cleaned;
    RunAppend(cfg, actions, PRUNE);
  }

  // All buckets from one hour up to another are there.
  predicate HasHours(slot: Option<Slot>, lo: int, hi: int) {
    forall h :: lo <= h < hi ==> Bucket(slot, h) >= 1
  }

  lemma WindowIsFull(cfg: Config, actions: seq<Action>, n: nat)
    requires n >= 48 && RunsIn(Home(), actions) && HourlyIn(Run(cfg, actions), n)
    ensures HasHours(Fetch(Run(cfg, actions).db, Name(Hours(Path("a")))), n - 48, n)
  {
    hide Run, Name, SightOk, MainOk, LinkOk, HourBucket, Tally, Bucket;
    var s, sub := Run(cfg, actions), Path("a");
    SubjectHolds(Home(), cfg, actions, sub);
    BucketOf(n - 1, 0);
    forall h | n - 48 <= h < n ensures Bucket(Fetch(s.db, Name(Hours(sub))), h) >= 1 {
      assert Visit(h * HOUR) in Of(s.kept, sub);
      BucketOf(h, 0);
      TallyCounts(Of(s.kept, sub), Visit(h * HOUR));
    }
  }

  lemma LateVisitAdds(slot: Option<Slot>, hour: nat, now: Time, hi: int)
    requires IsHash(slot) && HasHours(slot, hour + 1, hi) && Bucket(slot, hour) >= 0
    ensures HasHours(BumpHour(slot, Visit(hour * HOUR), now), hour, hi)
  {
    hide BumpHour, Bucket, HourBucket;
    var e := Visit(hour * HOUR);
    BucketOf(hour, 0);
    forall h | hour <= h < hi ensures Bucket(BumpHour(slot, e, now), h) >= 1 {
      BucketBumped(slot, e, now, h);
    }
  }

  // The run that fills the hash: k hours after the prune, and then the k dropped hours once more.
  function FillingRun(k: nat, m: nat): seq<Action>
    requires m <= k
  {
    Hourly(48 + k) + LateVisits(k, m)
  }

  ghost predicate FilledIn(s: State, k: nat, m: nat) {
    && Drained(s) && s.now == (47 + k) * HOUR
    && HasHours(Fetch(s.db, Name(Hours(Path("a")))), k - m, 48 + k)
  }

  lemma {:induction false} Filling(cfg: Config, k: nat, m: nat)
    requires cfg.capacity >= 1 && cfg.workers >= 1 && m <= k
    ensures RunsIn(Home(), FillingRun(k, m)) && FilledIn(Run(cfg, FillingRun(k, m)), k, m)
  {
    hide EventIn, Run, HasHours, RunsIn, Name;
    if m == 0 {
      HourlyState(cfg, 48 + k);
      WindowIsFull(cfg, Hourly(48 + k), 48 + k);
      assert FillingRun(k, 0) == Hourly(48 + k);
    } else {
      Filling(cfg, k, m - 1);
      assert FillingRun(k, m) == FillingRun(k, m - 1) + Delivery(Visit((k - m) * HOUR));
      LateVisitFills(cfg, FillingRun(k, m - 1), k - m, 48 + k);
    }
  }

  lemma LateVisitFills(cfg: Config, actions: seq<Action>, hour: nat, hi: int)
    requires cfg.capacity >= 1 && cfg.workers >= 1 && RunsIn(Home(), actions)
    requires var s := Run(cfg, actions);
      Drained(s) && hour * HOUR <= s.now && HasHours(Fetch(s.db, Name(Hours(Path("a")))), hour + 1, hi)
    ensures RunsIn(Home(), actions + Delivery(Visit(hour * HOUR)))
    ensures var s, s' := Run(cfg, actions), Run(cfg, actions + Delivery(Visit(hour * HOUR)));
      Drained(s') && s'.now == s.now && HasHours(Fetch(s'.db, Name(Hours(Path("a")))), hour, hi)
  {
    hide EventIn, Run, HasHours, RunsIn, Name, Recorded, BumpHour, SightOk, MainOk, LinkOk, Bucket, Tally;
    var s, e, sub := Run(cfg, actions), Visit(hour * HOUR), Path("a");
    VisitIsSafe(hour * HOUR);
    Delivered(Home(), cfg, actions, e);
    RecordedAt(Home(), s.db, e, s.now, Hours(sub));
    SubjectHolds(Home(), cfg, actions, sub);
    NoBuckets(hour);
    LateVisitAdds(Fetch(s.db, Name(Hours(sub))), hour, s.now, hi);
  }

  lemma NoBuckets(h: int)
    ensures Bucket(None, h) == 0
  {}

  lemma {:induction false} FieldsAtLeast(fields: map<string, int>, lo: int, hi: int)
    requires lo <= hi && forall h :: lo <= h < hi ==> FormatInt(h) in fields
    ensures |fields| >= hi - lo
    decreases hi - lo
  {
    hide FormatInt;
    if lo < hi {
      var rest := fields - {FormatInt(lo)};
      forall h | lo < h < hi ensures FormatInt(h) in rest {
        if FormatInt(h) == FormatInt(lo) {
          FormatInjective(h, lo);
        }
      }
      FieldsAtLeast(rest, lo + 1, hi);
      assert fields.Keys == rest.Keys + {FormatInt(lo)};
      assert |rest.Keys + {FormatInt(lo)}| == |rest.Keys| + 1;
    }
  }

  lemma {:induction false} HourlyBegins(n: nat)
    requires n >= 48
    ensures Hourly(48) <= Hourly(n)
  {
    hide Hourly;
    if n > 48 {
      HourlyBegins(n - 1);
      HourlyGrows(n);
    }
  }

  lemma HourlyGrows(n: nat)
    requires n > 48
    ensures Hourly(n - 1) <= Hourly(n)
  {
    assert Hourly(n) == Hourly(n - 1) + ([Tick((n - 1) * HOUR)] + Delivery(Visit((n - 1) * HOUR)));
  }

  // Where the prune happens in the run, and when.
  lemma PruneInRun(cfg: Config, k: nat)
    requires cfg.capacity >= 1 && cfg.workers >= 1
    ensures var actions, from := FillingRun(k, k), |Hourly(48)| - 1;
      0 <= from < |actions| && actions[from] == PRUNE && 47 * HOUR <= Run(cfg, actions[..from]).now
  {
    hide Run, RunsIn, Hourly;
    var struck := Hourly(47) + [Tick(47 * HOUR)] + Delivery(Visit(47 * HOUR));
    HourlyAt48();
    HourlyBegins(48 + k);
    HourlyState(cfg, 47);
    Strikes(cfg, Hourly(47), 48);
    var actions := FillingRun(k, k);
    assert actions[..|struck|] == struck && actions[|struck|] == PRUNE;
  }

  lemma HourlyAt48()
    ensures Hourly(48) == Hourly(47) + [Tick(47 * HOUR)] + Delivery(Visit(47 * HOUR)) + [PRUNE]
  {}

  /** The bound of StatLimits.HashStaysSmall is reached: for every k there is a run in which, k hours after
      a prune, the hash holds exactly 48 + k fields; by OrderedHashStaysSmaller such a run cannot be in
      timestamp order (for k up to 48). */
  lemma HashBoundIsReached(cfg: Config, k: nat)
    requires cfg.capacity >= 1 && cfg.workers >= 1
    ensures var actions, from, key := FillingRun(k, k), |Hourly(48)| - 1, Name(Hours(Path("a")));
      && RunsIn(Home(), actions) && 0 <= from < |actions| && actions[from] == CleanWindow(key, 47 * HOUR)
      && 47 * HOUR <= Run(cfg, actions[..from]).now
      && FreshAfter(cfg, actions, from, Path("a"), FirstHour(47 * HOUR))
      && HourBucket(Run(cfg, actions).now) == HourBucket(47 * HOUR) + k
      && |Fields(Fetch(Run(cfg, actions).db, key))| == WINDOW_HOURS + k
  {
    hide Run, RunsIn, HasHours, Hourly, FillingRun, HourBucket, Name;
    var actions, from := FillingRun(k, k), |Hourly(48)| - 1;
    Filling(cfg, k, k);
    PruneInRun(cfg, k);
    BucketOf(47, 0);
    BucketOf(47 + k, 0);
    NeverTooOld(cfg, actions, from);
    HashStaysSmall(Home(), cfg, actions, from, Path("a"), 47 * HOUR);
    FilledFields(Fetch(Run(cfg, actions).db, Name(Hours(Path("a")))), 48 + k);
  }

  lemma NeverTooOld(cfg: Config, actions: seq<Action>, from: nat)
    ensures FreshAfter(cfg, actions, from, Path("a"), FirstHour(47 * HOUR))
  {
    hide Run;
  }

  lemma FilledFields(slot: Option<Slot>, hi: nat)
    requires HasHours(slot, 0, hi)
    ensures |Fields(slot)| >= hi
  {
    hide FormatInt;
    forall h | 0 <= h < hi ensures FormatInt(h) in Fields(slot) {
      assert Bucket(slot, h) >= 1;
    }
    FieldsAtLeast(Fields(slot), 0, hi);
  }
}
