/** The delayed token deleter: one timer for each scheduled token, a bounded map of pending timers
    under a mutex, and cancellation. A timer callback runs in separate steps, with anything in
    between: it fires, takes the mutex and removes the map entry, checks the context, deletes.

    `latest` and `deletes` are history: the last schedule of each token and every deletion made. */
module DelayDelete {
  import opened Wrappers

  datatype Phase = Armed | Fired | Unlocked | Checked | Stopped | Done

  datatype Timer = Timer(token: string, armedAt: int, phase: Phase)

  // A deletion, by a timer or straight from schedule, and the token's latest schedule at that moment.
  datatype Deletion = Deletion(token: string, at: int, timer: Option<nat>, scheduledAt: int)

  datatype Schedule = Schedule(at: int, timer: Option<nat>)

  datatype Config = Config(delay: nat, maxPending: nat)

  datatype State = State(
    now: int,
    cancelled: bool,
    pending: Option<map<string, nat>>,
    timers: seq<Timer>,
    deletes: seq<Deletion>,
    latest: map<string, Schedule>)

  datatype Action =
    | Tick(to: int)
    | Request(token: string)
    | Fire(id: nat)
    | Lock(id: nat)
    | Check(id: nat)
    | Remove(id: nat)
    | Cancel
    | StopAll

  const Start := State(0, false, Some(map[]), [], [], map[])

  predicate InPhase(s: State, id: nat, phase: Phase) {
    id < |s.timers| && s.timers[id].phase == phase
  }

  function SetPhase(timers: seq<Timer>, id: nat, phase: Phase): seq<Timer>
    requires id < |timers|
  {
    timers[id := timers[id].(phase := phase)]
  }

  // timer.Stop: only a timer that has not fired can still be stopped.
  function StopTimer(timers: seq<Timer>, id: nat): seq<Timer> {
    if id < |timers| && timers[id].phase.Armed? then SetPhase(timers, id, Stopped) else timers
  }

  function Scheduled(cfg: Config, s: State, token: string): State {
    if s.cancelled || s.pending.None? then s
    else
      var had := token in s.pending.value;
      var timers := if had then StopTimer(s.timers, s.pending.value[token]) else s.timers;
      var pending := s.pending.value - {token};
      if |pending| >= cfg.maxPending then
        s.(pending := Some(pending), timers := timers,
           deletes := s.deletes + [Deletion(token, s.now, None, s.now)],
           latest := s.latest[token := Schedule(s.now, None)])
      else
        s.(pending := Some(pending[token := |timers|]),
           timers := timers + [Timer(token, s.now, Armed)],
           latest := s.latest[token := Schedule(s.now, Some(|timers|))])
  }

  function AllStopped(timers: seq<Timer>, ids: set<nat>): (r: seq<Timer>)
    ensures |r| == |timers|
    ensures forall i :: 0 <= i < |r| ==> r[i].token == timers[i].token && r[i].armedAt == timers[i].armedAt
    ensures forall i :: 0 <= i < |r| ==> r[i].phase == if i in ids && timers[i].phase.Armed? then Stopped else timers[i].phase
  {
    seq(|timers|, i requires 0 <= i < |timers| =>
      if i in ids && timers[i].phase.Armed? then timers[i].(phase := Stopped) else timers[i])
  }

  function Locked(s: State, id: nat): State
    requires id < |s.timers|
  {
    var pending := if s.pending.None? then None else Some(s.pending.value - {s.timers[id].token});
    s.(pending := pending, timers := SetPhase(s.timers, id, Unlocked))
  }

  function Removed(s: State, id: nat): State
    requires id < |s.timers|
  {
    var token := s.timers[id].token;
    var since := if token in s.latest then s.latest[token].at else s.timers[id].armedAt;
    s.(timers := SetPhase(s.timers, id, Done), deletes := s.deletes + [Deletion(token, s.now, Some(id), since)])
  }

  function Step(cfg: Config, s: State, a: Action): State {
    match a
    case Tick(to) => if to < s.now then s else s.(now := to)
    case Request(token) => Scheduled(cfg, s, token)
    case Fire(id) =>
      if InPhase(s, id, Armed) && s.timers[id].armedAt + cfg.delay <= s.now
      then s.(timers := SetPhase(s.timers, id, Fired)) else s
    case Lock(id) => if InPhase(s, id, Fired) then Locked(s, id) else s
    case Check(id) =>
      if InPhase(s, id, Unlocked)
      then s.(timers := SetPhase(s.timers, id, if s.cancelled then Done else Checked)) else s
    case Remove(id) => if InPhase(s, id, Checked) then Removed(s, id) else s
    case Cancel => s.(cancelled := true)
    case StopAll =>
      if s.cancelled && s.pending.Some?
      then s.(timers := AllStopped(s.timers, s.pending.value.Values), pending := None) else s
  }

  function RunFrom(cfg: Config, s: State, actions: seq<Action>): State {
    if actions == [] then s
    else Step(cfg, RunFrom(cfg, s, actions[..|actions| - 1]), actions[|actions| - 1])
  }

  function Run(cfg: Config, actions: seq<Action>): State {
    RunFrom(cfg, Start, actions)
  }

  lemma RunAppend(cfg: Config, s: State, actions: seq<Action>, a: Action)
    ensures RunFrom(cfg, s, actions + [a]) == Step(cfg, RunFrom(cfg, s, actions), a)
  {}

  // ------------------------------------------------------------ safety

  predicate Live(phase: Phase) {
    phase.Armed? || phase.Fired? || phase.Unlocked? || phase.Checked?
  }

  predicate HasFired(phase: Phase) {
    phase.Fired? || phase.Unlocked? || phase.Checked?
  }

  // The map of pending timers is bounded, and each entry is a timer of that token that has not run
  // its callback yet; it is gone only after cancellation.
  ghost predicate PendingOk(cfg: Config, s: State) {
    && (s.pending.None? ==> s.cancelled)
    && (s.pending.Some? ==>
          && |s.pending.value| <= cfg.maxPending
          && forall t :: t in s.pending.value ==>
                var id := s.pending.value[t];
                id < |s.timers| && s.timers[id].token == t && (s.timers[id].phase.Armed? || s.timers[id].phase.Fired?))
  }

  ghost predicate TimersOk(cfg: Config, s: State) {
    forall i :: 0 <= i < |s.timers| ==>
      && s.timers[i].armedAt <= s.now
      && s.timers[i].token in s.latest
      && s.timers[i].armedAt <= s.latest[s.timers[i].token].at
      && (HasFired(s.timers[i].phase) ==> s.timers[i].armedAt + cfg.delay <= s.now)
  }

  predicate DeletedSince(deletes: seq<Deletion>, token: string, since: int) {
    exists k :: 0 <= k < |deletes| && deletes[k].token == token && deletes[k].at >= since
  }

  // The latest schedule of a token either deleted it at once, or armed a timer that is live or has
  // deleted it.
  ghost predicate LatestOk(s: State, token: string) {
    token in s.latest ==>
      var at, timer := s.latest[token].at, s.latest[token].timer;
      && at <= s.now
      && (timer.None? ==> DeletedSince(s.deletes, token, at))
      && (timer.Some? ==>
            && timer.value < |s.timers|
            && s.timers[timer.value].token == token && s.timers[timer.value].armedAt == at
            && (!s.cancelled ==> !s.timers[timer.value].phase.Stopped?)
            && (!s.cancelled && s.timers[timer.value].phase.Done? ==> DeletedSince(s.deletes, token, at))
            && (s.pending.Some? && token in s.pending.value ==> s.pending.value[token] == timer.value))
  }

  ghost predicate Inv(cfg: Config, s: State) {
    PendingOk(cfg, s) && TimersOk(cfg, s) && forall token :: LatestOk(s, token)
  }

  lemma MoreDeletes(deletes: seq<Deletion>, d: Deletion)
    ensures forall t, since :: DeletedSince(deletes, t, since) ==> DeletedSince(deletes + [d], t, since)
    ensures forall since :: since <= d.at ==> DeletedSince(deletes + [d], d.token, since)
  {
    forall t, since | DeletedSince(deletes, t, since) ensures DeletedSince(deletes + [d], t, since) {
      var k :| 0 <= k < |deletes| && deletes[k].token == t && deletes[k].at >= since;
      assert (deletes + [d])[k] == deletes[k];
    }
    assert (deletes + [d])[|deletes|] == d;
  }

  lemma ScheduledKeeps(cfg: Config, s: State, token: string)
    requires Inv(cfg, s)
    ensures Inv(cfg, Scheduled(cfg, s, token))
  {
    var s' := Scheduled(cfg, s, token);
    if !s.cancelled {
      ScheduledPending(cfg, s, token);
      forall t ensures LatestOk(s', t) {
        ScheduledLatest(cfg, s, token, t);
      }
    }
  }

  lemma MapSizes(m: map<string, nat>, k: string, v: nat)
    ensures |m - {k}| <= |m| && |m[k := v]| <= |m| + 1
  {}

  lemma ScheduledPending(cfg: Config, s: State, token: string)
    requires Inv(cfg, s) && !s.cancelled
    ensures PendingOk(cfg, Scheduled(cfg, s, token)) && TimersOk(cfg, Scheduled(cfg, s, token))
  {
    hide LatestOk, Inv, Scheduled;
    InvParts(cfg, s);
    var pending := s.pending.value;
    MapSizes(pending, token, 0);
    MapSizes(pending - {token}, token, |s.timers|);
    EntriesKept(cfg, s, token);
    TimersKept(cfg, s, token);
  }

  lemma InvParts(cfg: Config, s: State)
    requires Inv(cfg, s)
    ensures PendingOk(cfg, s) && TimersOk(cfg, s)
    ensures forall t :: t in s.latest ==> s.latest[t].at <= s.now
  {
    forall t | t in s.latest ensures s.latest[t].at <= s.now {
      assert LatestOk(s, t);
    }
  }

  lemma EntriesKept(cfg: Config, s: State, token: string)
    requires PendingOk(cfg, s) && !s.cancelled
    ensures var s' := Scheduled(cfg, s, token);
      s'.pending.Some? && forall t :: t in s'.pending.value ==>
        var id := s'.pending.value[t];
        id < |s'.timers| && s'.timers[id].token == t && (s'.timers[id].phase.Armed? || s'.timers[id].phase.Fired?)
    ensures var s', rest := Scheduled(cfg, s, token), s.pending.value - {token};
      if |rest| >= cfg.maxPending then s'.pending.value == rest else s'.pending.value == rest[token := |s.timers|]
  {}

  lemma TimersKept(cfg: Config, s: State, token: string)
    requires TimersOk(cfg, s) && !s.cancelled && (forall t :: t in s.latest ==> s.latest[t].at <= s.now)
    ensures TimersOk(cfg, Scheduled(cfg, s, token))
  {
    var s' := Scheduled(cfg, s, token);
    forall i | 0 <= i < |s.timers|
      ensures s'.timers[i] == s.timers[i] || s'.timers[i] == s.timers[i].(phase := Stopped)
    {}
  }

  lemma ScheduledLatest(cfg: Config, s: State, token: string, t: string)
    requires Inv(cfg, s) && !s.cancelled
    ensures LatestOk(Scheduled(cfg, s, token), t)
  {
    hide DeletedSince, Inv, Scheduled, LatestOk;
    InvParts(cfg, s);
    if t == token {
      ScheduledSelf(cfg, s, token);
    } else {
      InvLatest(cfg, s, t);
      ScheduledOther(cfg, s, token, t);
    }
  }

  lemma InvLatest(cfg: Config, s: State, t: string)
    requires Inv(cfg, s)
    ensures LatestOk(s, t)
  {}

  lemma ScheduledSelf(cfg: Config, s: State, token: string)
    requires PendingOk(cfg, s) && !s.cancelled
    ensures LatestOk(Scheduled(cfg, s, token), token)
  {
    hide DeletedSince, StopTimer;
    MoreDeletes(s.deletes, Deletion(token, s.now, None, s.now));
  }

  lemma ScheduledOther(cfg: Config, s: State, token: string, t: string)
    requires PendingOk(cfg, s) && !s.cancelled && t != token && LatestOk(s, t)
    ensures LatestOk(Scheduled(cfg, s, token), t)
  {
    hide DeletedSince;
    MoreDeletes(s.deletes, Deletion(token, s.now, None, s.now));
  }

  lemma FireKeeps(cfg: Config, s: State, id: nat)
    requires Inv(cfg, s) && InPhase(s, id, Armed) && s.timers[id].armedAt + cfg.delay <= s.now
    ensures Inv(cfg, Step(cfg, s, Fire(id)))
  {
    hide DeletedSince;
    forall t ensures LatestOk(Step(cfg, s, Fire(id)), t) {
      assert LatestOk(s, t);
    }
  }

  lemma LockKeeps(cfg: Config, s: State, id: nat)
    requires Inv(cfg, s) && InPhase(s, id, Fired)
    ensures Inv(cfg, Locked(s, id))
  {
    hide DeletedSince, Locked, LatestOk, PendingOk, TimersOk;
    LockPending(cfg, s, id);
    forall t ensures LatestOk(Locked(s, id), t) {
      assert LatestOk(s, t);
      LockLatest(s, id, t);
    }
  }

  lemma LockPending(cfg: Config, s: State, id: nat)
    requires PendingOk(cfg, s) && TimersOk(cfg, s) && InPhase(s, id, Fired)
    ensures PendingOk(cfg, Locked(s, id)) && TimersOk(cfg, Locked(s, id))
  {
    if s.pending.Some? {
      MapSizes(s.pending.value, s.timers[id].token, 0);
    }
  }

  lemma LockLatest(s: State, id: nat, t: string)
    requires InPhase(s, id, Fired) && LatestOk(s, t)
    ensures LatestOk(Locked(s, id), t)
  {}

  lemma CheckKeeps(cfg: Config, s: State, id: nat)
    requires Inv(cfg, s) && InPhase(s, id, Unlocked)
    ensures Inv(cfg, Step(cfg, s, Check(id)))
  {
    hide DeletedSince;
    forall t ensures LatestOk(Step(cfg, s, Check(id)), t) {
      assert LatestOk(s, t);
    }
  }

  lemma RemoveKeeps(cfg: Config, s: State, id: nat)
    requires Inv(cfg, s) && InPhase(s, id, Checked)
    ensures Inv(cfg, Removed(s, id))
  {
    hide DeletedSince;
    var s' := Removed(s, id);
    MoreDeletes(s.deletes, s'.deletes[|s.deletes|]);
    forall t ensures LatestOk(s', t) {
      assert LatestOk(s, t);
    }
  }

  lemma StopAllKeeps(cfg: Config, s: State)
    requires Inv(cfg, s) && s.cancelled && s.pending.Some?
    ensures Inv(cfg, Step(cfg, s, StopAll))
  {
    hide DeletedSince;
    forall t ensures LatestOk(Step(cfg, s, StopAll), t) {
      assert LatestOk(s, t);
    }
  }

  lemma RestKeeps(cfg: Config, s: State, a: Action)
    requires Inv(cfg, s) && (a.Tick? || a.Cancel?)
    ensures Inv(cfg, Step(cfg, s, a))
  {
    hide DeletedSince;
    forall t ensures LatestOk(Step(cfg, s, a), t) {
      assert LatestOk(s, t);
    }
  }

  lemma StepKeeps(cfg: Config, s: State, a: Action)
    requires Inv(cfg, s)
    ensures Inv(cfg, Step(cfg, s, a))
  {
    hide Inv, Scheduled;
    match a {
      case Request(token) => ScheduledKeeps(cfg, s, token);
      case Fire(id) => if InPhase(s, id, Armed) && s.timers[id].armedAt + cfg.delay <= s.now { FireKeeps(cfg, s, id); }
      case Lock(id) => if InPhase(s, id, Fired) { LockKeeps(cfg, s, id); }
      case Check(id) => if InPhase(s, id, Unlocked) { CheckKeeps(cfg, s, id); }
      case Remove(id) => if InPhase(s, id, Checked) { RemoveKeeps(cfg, s, id); }
      case StopAll => if s.cancelled && s.pending.Some? { StopAllKeeps(cfg, s); }
      case Tick(_) => RestKeeps(cfg, s, a);
      case Cancel => RestKeeps(cfg, s, a);
    }
  }

  /** In every interleaving: at most maxPending entries, each an armed timer or one that fired and
      waits for the mutex; and the map is nil only after cancellation, so schedule never writes to
      a nil map. */
  lemma {:induction false} RunIsSafe(cfg: Config, actions: seq<Action>)
    ensures Inv(cfg, Run(cfg, actions))
  {
    hide Step;
    if actions != [] {
      var before, last := actions[..|actions| - 1], actions[|actions| - 1];
      RunIsSafe(cfg, before);
      StepKeeps(cfg, Run(cfg, before), last);
    }
  }

  // ------------------------------------------------------------ no lost deletion

  ghost predicate LiveSince(s: State, token: string, at: int) {
    exists id :: 0 <= id < |s.timers| && s.timers[id].token == token && s.timers[id].armedAt == at && Live(s.timers[id].phase)
  }

  /** Until cancellation no scheduled deletion is lost, even when the callback of an older timer has
      removed the entry of the new one: every token has been deleted at or after its latest schedule,
      or the timer armed by that schedule is still on its way. */
  lemma NoLostDelete(cfg: Config, actions: seq<Action>, token: string)
    requires var s := Run(cfg, actions); !s.cancelled && token in s.latest
    ensures var s := Run(cfg, actions);
      DeletedSince(s.deletes, token, s.latest[token].at) || LiveSince(s, token, s.latest[token].at)
  {
    hide DeletedSince, Run;
    var s := Run(cfg, actions);
    RunIsSafe(cfg, actions);
    assert LatestOk(s, token);
    if s.latest[token].timer.Some? {
      var id := s.latest[token].timer.value;
      assert s.timers[id].token == token;
    }
  }

  /** So once all timers have run, every token has been deleted since it was last scheduled. */
  lemma QuiescentMeansDeleted(cfg: Config, actions: seq<Action>, token: string)
    requires var s := Run(cfg, actions);
      !s.cancelled && token in s.latest && forall i :: 0 <= i < |s.timers| ==> !Live(s.timers[i].phase)
    ensures DeletedSince(Run(cfg, actions).deletes, token, Run(cfg, actions).latest[token].at)
  {
    NoLostDelete(cfg, actions, token);
  }

  // ------------------------------------------------------------ scheduling

  /** A pending token is re-armed, never deleted at once, even when the map is full; any other token
      is deleted at once exactly when the map is full. */
  lemma ScheduleDecision(cfg: Config, actions: seq<Action>, token: string)
    requires !Run(cfg, actions).cancelled && cfg.maxPending >= 1
    ensures var s, s' := Run(cfg, actions), Scheduled(cfg, Run(cfg, actions), token);
      s.pending.Some? && s'.pending.Some? &&
      if token !in s.pending.value && |s.pending.value| == cfg.maxPending
      then s'.timers == s.timers && s'.deletes == s.deletes + [Deletion(token, s.now, None, s.now)]
      else
        && s'.deletes == s.deletes && token in s'.pending.value && s'.pending.value[token] == |s.timers|
        && |s'.timers| == |s.timers| + 1 && s'.timers[|s.timers|] == Timer(token, s.now, Armed)
  {
    hide Run;
    var s := Run(cfg, actions);
    RunIsSafe(cfg, actions);
    var pending := s.pending.value;
    if token in pending {
      assert pending.Keys == (pending - {token}).Keys + {token};
    } else {
      assert pending - {token} == pending;
    }
  }

  // ------------------------------------------------------------ cancellation

  // After cancellation only timers whose context check came first can still delete.
  ghost predicate OnlyChecked(s: State, s': State) {
    && s'.cancelled && s.deletes <= s'.deletes && |s'.timers| == |s.timers|
    && (forall k :: |s.deletes| <= k < |s'.deletes| ==>
          s'.deletes[k].timer.Some? && InPhase(s, s'.deletes[k].timer.value, Checked))
    && (forall i :: 0 <= i < |s'.timers| && s'.timers[i].phase.Checked? ==> s.timers[i].phase.Checked?)
  }

  /** No deletion after cancellation, whatever fires or is scheduled, except by a timer whose context
      check had already passed. */
  lemma {:induction false} CancelStopsDeletes(cfg: Config, s: State, actions: seq<Action>)
    requires s.cancelled
    ensures OnlyChecked(s, RunFrom(cfg, s, actions))
  {
    if actions != [] {
      CancelStopsDeletes(cfg, s, actions[..|actions| - 1]);
      CancelledStep(cfg, s, RunFrom(cfg, s, actions[..|actions| - 1]), actions[|actions| - 1]);
    }
  }

  lemma CancelledStep(cfg: Config, s: State, s1: State, a: Action)
    requires OnlyChecked(s, s1)
    ensures OnlyChecked(s, Step(cfg, s1, a))
  {}

  predicate IsPending(s: State, id: int) {
    s.pending.Some? && exists t :: t in s.pending.value && s.pending.value[t] == id
  }

  /** stopAll stops every pending timer that has not fired, leaves every other timer as it is, and
      leaves no map. */
  lemma StopAllStops(cfg: Config, s: State)
    requires s.cancelled && s.pending.Some?
    ensures var s' := Step(cfg, s, StopAll);
      && s'.pending.None? && |s'.timers| == |s.timers| && s'.deletes == s.deletes
      && forall i :: 0 <= i < |s.timers| ==>
           s'.timers[i] == if IsPending(s, i) && s.timers[i].phase.Armed? then s.timers[i].(phase := Stopped) else s.timers[i]
  {
    forall i ensures IsPending(s, i) <==> i in s.pending.value.Values {}
  }

  ghost predicate NoneArmed(s: State) {
    forall i :: 0 <= i < |s.timers| ==> !s.timers[i].phase.Armed?
  }

  /** In a clean run it leaves no armed timer at all, and whatever comes after, none is armed again. */
  lemma NothingArmedAfterStop(cfg: Config, actions: seq<Action>, more: seq<Action>)
    requires Clean(cfg, actions) && Run(cfg, actions).cancelled && Run(cfg, actions).pending.Some?
    ensures NoneArmed(RunFrom(cfg, Step(cfg, Run(cfg, actions), StopAll), more))
  {
    hide Run, Step, Clean, SoleTimer;
    var s := Run(cfg, actions);
    CleanRunsWait(cfg, actions);
    RunIsSafe(cfg, actions);
    StopAllStops(cfg, s);
    var s' := Step(cfg, s, StopAll);
    forall i | 0 <= i < |s'.timers| ensures !s'.timers[i].phase.Armed? {
      if s.timers[i].phase.Armed? {
        ArmedIsPending(s, i);
      }
    }
    StaysCancelled(cfg, s);
    StaysUnarmed(cfg, s', more);
  }

  lemma ArmedIsPending(s: State, i: nat)
    requires i < |s.timers| && SoleTimer(s, i) && s.pending.Some? && s.timers[i].phase.Armed?
    ensures IsPending(s, i)
  {
    assert s.pending.value[s.timers[i].token] == i;
  }

  lemma StaysCancelled(cfg: Config, s: State)
    requires s.cancelled
    ensures Step(cfg, s, StopAll).cancelled
  {}

  lemma {:induction false} StaysUnarmed(cfg: Config, s: State, more: seq<Action>)
    requires s.cancelled && NoneArmed(s)
    ensures RunFrom(cfg, s, more).cancelled && NoneArmed(RunFrom(cfg, s, more))
  {
    hide Step;
    if more != [] {
      StaysUnarmed(cfg, s, more[..|more| - 1]);
      UnarmedStep(cfg, RunFrom(cfg, s, more[..|more| - 1]), more[|more| - 1]);
    }
  }

  lemma UnarmedStep(cfg: Config, s: State, a: Action)
    requires s.cancelled && NoneArmed(s)
    ensures Step(cfg, s, a).cancelled && NoneArmed(Step(cfg, s, a))
  {}

  // ------------------------------------------------------------ how early a deletion may come

  // The earliest moment at which a live timer can delete its token.
  function Ready(cfg: Config, s: State, id: nat): int
    requires id < |s.timers|
  {
    if s.timers[id].phase.Armed? && s.now < s.timers[id].armedAt + cfg.delay then s.timers[id].armedAt + cfg.delay
    else s.now
  }

  predicate NoRequest(actions: seq<Action>, token: string) {
    forall i :: 0 <= i < |actions| ==> actions[i] != Request(token)
  }

  // Some continuation that does not schedule the token again lets a timer delete it before `limit`.
  predicate DeletedBefore(s: State, s': State, token: string, limit: int) {
    exists k :: |s.deletes| <= k < |s'.deletes| && s'.deletes[k].token == token && s'.deletes[k].timer.Some? && s'.deletes[k].at < limit
  }

  ghost predicate CanDeleteBefore(cfg: Config, s: State, token: string, limit: int) {
    exists actions :: NoRequest(actions, token) && DeletedBefore(s, RunFrom(cfg, s, actions), token, limit)
  }

  ghost predicate NoneBefore(cfg: Config, s: State, token: string, limit: int) {
    forall i :: 0 <= i < |s.timers| && s.timers[i].token == token && Live(s.timers[i].phase) ==> Ready(cfg, s, i) >= limit
  }

  lemma NoneBeforeStep(cfg: Config, s: State, s1: State, a: Action, token: string, limit: int)
    requires s.deletes <= s1.deletes && NoneBefore(cfg, s1, token, limit) && a != Request(token)
    requires !DeletedBefore(s, s1, token, limit)
    ensures var s2 := Step(cfg, s1, a);
      s.deletes <= s2.deletes && NoneBefore(cfg, s2, token, limit) && !DeletedBefore(s, s2, token, limit)
  {
    hide NoneBefore, Step, DeletedBefore;
    NoneReadyStep(cfg, s1, a, token, limit);
    NoneDeletedStep(cfg, s, s1, a, token, limit);
  }

  lemma NoneReadyStep(cfg: Config, s1: State, a: Action, token: string, limit: int)
    requires NoneBefore(cfg, s1, token, limit) && a != Request(token)
    ensures NoneBefore(cfg, Step(cfg, s1, a), token, limit)
  {
    hide Scheduled;
    if a.Request? {
      RequestTimers(cfg, s1, a.token);
    }
  }

  // A request only ever stops an armed timer and arms a new one for its own token.
  lemma RequestTimers(cfg: Config, s: State, token: string)
    ensures var s' := Scheduled(cfg, s, token);
      && s'.now == s.now && |s.timers| <= |s'.timers|
      && (forall i :: 0 <= i < |s.timers| ==> s'.timers[i] == s.timers[i] || s'.timers[i] == s.timers[i].(phase := Stopped))
      && (forall i :: |s.timers| <= i < |s'.timers| ==> s'.timers[i].token == token)
  {}

  lemma NoneDeletedStep(cfg: Config, s: State, s1: State, a: Action, token: string, limit: int)
    requires s.deletes <= s1.deletes && NoneBefore(cfg, s1, token, limit) && !DeletedBefore(s, s1, token, limit)
    ensures var s2 := Step(cfg, s1, a); s.deletes <= s2.deletes && !DeletedBefore(s, s2, token, limit)
  {}

  lemma {:induction false} NoneBeforeRun(cfg: Config, s: State, actions: seq<Action>, token: string, limit: int)
    requires NoneBefore(cfg, s, token, limit) && NoRequest(actions, token)
    ensures var s' := RunFrom(cfg, s, actions);
      s.deletes <= s'.deletes && NoneBefore(cfg, s', token, limit) && !DeletedBefore(s, s', token, limit)
  {
    hide Step, NoneBefore, DeletedBefore;
    if actions == [] {
      NothingNew(s, token, limit);
    } else {
      NoneBeforeRun(cfg, s, actions[..|actions| - 1], token, limit);
      NoneBeforeStep(cfg, s, RunFrom(cfg, s, actions[..|actions| - 1]), actions[|actions| - 1], token, limit);
    }
  }

  lemma NothingNew(s: State, token: string, limit: int)
    ensures !DeletedBefore(s, s, token, limit)
  {}

  // Letting one live timer run to its end, as fast as it can.
  function Finish(cfg: Config, s: State, id: nat): seq<Action>
    requires id < |s.timers|
  {
    [Tick(Ready(cfg, s, id)), Fire(id), Lock(id), Check(id), Remove(id)]
  }

  lemma RunNothing(cfg: Config, s: State)
    ensures RunFrom(cfg, s, []) == s
  {}

  lemma RunFive(cfg: Config, s: State, a: Action, b: Action, c: Action, d: Action, e: Action)
    ensures RunFrom(cfg, s, [a, b, c, d, e]) ==
      Step(cfg, Step(cfg, Step(cfg, Step(cfg, Step(cfg, s, a), b), c), d), e)
  {
    hide Step, RunFrom;
    RunNothing(cfg, s);
    RunAppend(cfg, s, [], a);
    RunAppend(cfg, s, [a], b);
    RunAppend(cfg, s, [a, b], c);
    RunAppend(cfg, s, [a, b, c], d);
    RunAppend(cfg, s, [a, b, c, d], e);
    assert [] + [a] == [a] && [a] + [b] == [a, b] && [a, b] + [c] == [a, b, c];
    assert [a, b, c] + [d] == [a, b, c, d] && [a, b, c, d] + [e] == [a, b, c, d, e];
  }

  lemma FinishDeletes(cfg: Config, s: State, id: nat)
    requires !s.cancelled && id < |s.timers| && Live(s.timers[id].phase)
    requires HasFired(s.timers[id].phase) ==> s.timers[id].armedAt + cfg.delay <= s.now
    ensures var s' := RunFrom(cfg, s, Finish(cfg, s, id));
      && |s'.deletes| == |s.deletes| + 1
      && s'.deletes[|s.deletes|].token == s.timers[id].token && s'.deletes[|s.deletes|].timer == Some(id)
      && s'.deletes[|s.deletes|].at == Ready(cfg, s, id)
  {
    RunFive(cfg, s, Tick(Ready(cfg, s, id)), Fire(id), Lock(id), Check(id), Remove(id));
  }

  /** The exact delay bound. From any reachable uncancelled state, and without scheduling the token
      again, a timer can delete it before `limit` if and only if some live timer of the token is ready
      before then. With `limit` the latest schedule plus the delay this says when a deletion can come
      too early: exactly when an older timer of the token is still live and fired, or was armed earlier. */
  lemma EarliestDeletion(cfg: Config, actions: seq<Action>, token: string, limit: int)
    requires !Run(cfg, actions).cancelled
    ensures var s := Run(cfg, actions);
      CanDeleteBefore(cfg, s, token, limit) <==>
      exists id :: 0 <= id < |s.timers| && s.timers[id].token == token && Live(s.timers[id].phase) && Ready(cfg, s, id) < limit
  {
    hide Run, Step, DeletedBefore;
    var s := Run(cfg, actions);
    if id :| 0 <= id < |s.timers| && s.timers[id].token == token && Live(s.timers[id].phase) && Ready(cfg, s, id) < limit {
      RunIsSafe(cfg, actions);
      FinishDeletes(cfg, s, id);
      assert NoRequest(Finish(cfg, s, id), token);
      NewDeletion(s, RunFrom(cfg, s, Finish(cfg, s, id)), token, limit);
    } else {
      forall more | NoRequest(more, token) ensures !DeletedBefore(s, RunFrom(cfg, s, more), token, limit) {
        NoneBeforeRun(cfg, s, more, token, limit);
      }
    }
  }

  lemma NewDeletion(s: State, s': State, token: string, limit: int)
    requires |s'.deletes| == |s.deletes| + 1
    requires var d := s'.deletes[|s.deletes|]; d.token == token && d.timer.Some? && d.at < limit
    ensures DeletedBefore(s, s', token, limit)
  {}

  // ------------------------------------------------------------ clean runs

  // Every timer a schedule supersedes is still pending and armed, so that Stop succeeds.
  predicate CleanAt(s: State, a: Action) {
    a.Request? && !s.cancelled && s.pending.Some? ==>
      forall i :: 0 <= i < |s.timers| && s.timers[i].token == a.token && Live(s.timers[i].phase) ==>
        s.timers[i].phase.Armed? && a.token in s.pending.value && s.pending.value[a.token] == i
  }

  predicate Clean(cfg: Config, actions: seq<Action>) {
    forall k :: 0 <= k < |actions| ==> CleanAt(Run(cfg, actions[..k]), actions[k])
  }

  // Only the latest timer of a token is live, and it is pending until it gets the mutex.
  predicate SoleTimer(s: State, i: int)
    requires 0 <= i < |s.timers|
  {
    var timer := s.timers[i];
    && (Live(timer.phase) ==>
          timer.token in s.latest && s.latest[timer.token].timer == Some(i) && s.latest[timer.token].at == timer.armedAt)
    && (s.pending.Some? && (timer.phase.Armed? || timer.phase.Fired?) ==>
          timer.token in s.pending.value && s.pending.value[timer.token] == i)
  }

  ghost predicate SoleTimers(cfg: Config, s: State) {
    forall i {:trigger s.timers[i]} :: 0 <= i < |s.timers| ==> SoleTimer(s, i)
  }

  ghost predicate InTime(cfg: Config, s: State) {
    forall k :: 0 <= k < |s.deletes| && s.deletes[k].timer.Some? ==> s.deletes[k].at >= s.deletes[k].scheduledAt + cfg.delay
  }

  // A clean request leaves no live timer of the token but the new one, and every other timer as it was.
  lemma CleanTimers(cfg: Config, s: State, token: string, i: nat)
    requires PendingOk(cfg, s) && !s.cancelled && SoleTimers(cfg, s) && CleanAt(s, Request(token))
    requires i < |s.timers|
    ensures var s' := Scheduled(cfg, s, token);
      i < |s'.timers| && if s.timers[i].token == token then !Live(s'.timers[i].phase) && s'.timers[i].token == token
                         else s'.timers[i] == s.timers[i]
  {}

  lemma CleanRequest(cfg: Config, s: State, token: string)
    requires PendingOk(cfg, s) && !s.cancelled && SoleTimers(cfg, s) && CleanAt(s, Request(token))
    ensures SoleTimers(cfg, Scheduled(cfg, s, token))
  {
    hide Scheduled, CleanAt, SoleTimer, PendingOk;
    NewTimer(cfg, s, token);
    forall i | 0 <= i < |Scheduled(cfg, s, token).timers| ensures SoleTimer(Scheduled(cfg, s, token), i) {
      SoleAfter(cfg, s, token, i);
    }
  }

  lemma SoleAfter(cfg: Config, s: State, token: string, i: nat)
    requires PendingOk(cfg, s) && !s.cancelled && SoleTimers(cfg, s) && CleanAt(s, Request(token))
    requires i < |Scheduled(cfg, s, token).timers|
    ensures SoleTimer(Scheduled(cfg, s, token), i)
  {
    hide Scheduled, CleanAt, SoleTimers;
    EntriesKept(cfg, s, token);
    NewTimer(cfg, s, token);
    if i < |s.timers| {
      CleanTimers(cfg, s, token, i);
      SoleInstance(cfg, s, i);
      var t := s.timers[i].token;
      assert t != token ==> t in s.latest ==> Scheduled(cfg, s, token).latest[t] == s.latest[t];
    }
  }

  lemma SoleInstance(cfg: Config, s: State, i: nat)
    requires SoleTimers(cfg, s) && i < |s.timers|
    ensures SoleTimer(s, i)
  {}

  lemma NewTimer(cfg: Config, s: State, token: string)
    requires PendingOk(cfg, s) && !s.cancelled
    ensures var s', armed := Scheduled(cfg, s, token), |s.pending.value - {token}| < cfg.maxPending;
      && |s'.timers| == |s.timers| + (if armed then 1 else 0)
      && (armed ==> s'.timers[|s.timers|] == Timer(token, s.now, Armed))
      && s'.latest == s.latest[token := Schedule(s.now, if armed then Some(|s.timers|) else None)]
  {}

  lemma CleanPhase(cfg: Config, s: State, a: Action)
    requires SoleTimers(cfg, s) && !a.Request?
    ensures SoleTimers(cfg, Step(cfg, s, a))
  {
    var s' := Step(cfg, s, a);
    forall i | 0 <= i < |s'.timers| ensures SoleTimer(s', i) {
      assert SoleTimer(s, i);
    }
  }

  lemma CleanStep(cfg: Config, s: State, a: Action)
    requires Inv(cfg, s) && SoleTimers(cfg, s) && CleanAt(s, a)
    ensures SoleTimers(cfg, Step(cfg, s, a))
  {
    hide LatestOk, CleanAt, TimersOk, Scheduled, SoleTimers;
    if !a.Request? {
      CleanPhase(cfg, s, a);
    } else if s.cancelled {
      NoChange(cfg, s, a.token);
    } else {
      CleanRequest(cfg, s, a.token);
    }
  }

  lemma NoChange(cfg: Config, s: State, token: string)
    requires s.cancelled
    ensures Scheduled(cfg, s, token) == s
  {}

  lemma InTimeStep(cfg: Config, s: State, a: Action)
    requires Inv(cfg, s) && SoleTimers(cfg, s) && InTime(cfg, s)
    ensures InTime(cfg, Step(cfg, s, a))
  {
    hide LatestOk, PendingOk, StopTimer, SoleTimer;
    if a.Remove? && InPhase(s, a.id, Checked) {
      SoleRemove(cfg, s, a.id);
    }
  }

  lemma SoleRemove(cfg: Config, s: State, id: nat)
    requires TimersOk(cfg, s) && SoleTimers(cfg, s) && InPhase(s, id, Checked)
    ensures var d := Removed(s, id).deletes[|s.deletes|];
      d == Deletion(s.timers[id].token, s.now, Some(id), s.timers[id].armedAt) && d.at >= d.scheduledAt + cfg.delay
  {
    assert SoleTimer(s, id);
  }

  /** When every superseded timer could still be stopped, no deletion by a timer comes earlier than
      the delay after the token's latest schedule, and the cap bounds the timers themselves: each one
      that has not taken the mutex yet is the pending timer of its token. */
  lemma {:induction false} CleanRunsWait(cfg: Config, actions: seq<Action>)
    requires Clean(cfg, actions)
    ensures SoleTimers(cfg, Run(cfg, actions)) && InTime(cfg, Run(cfg, actions))
  {
    hide Step, SoleTimers, InTime, CleanAt;
    if actions == [] {
      StartIsClean(cfg);
    } else {
      var before, last := actions[..|actions| - 1], actions[|actions| - 1];
      assert forall k :: 0 <= k < |before| ==> before[..k] == actions[..k] && before[k] == actions[k];
      CleanRunsWait(cfg, before);
      RunIsSafe(cfg, before);
      CleanStep(cfg, Run(cfg, before), last);
      InTimeStep(cfg, Run(cfg, before), last);
    }
  }

  lemma StartIsClean(cfg: Config)
    ensures SoleTimers(cfg, Start) && InTime(cfg, Start)
  {}

  // The timers that have not taken the mutex yet.
  function Waiting(s: State): set<nat> {
    set i | 0 <= i < |s.timers| && (s.timers[i].phase.Armed? || s.timers[i].phase.Fired?)
  }

  // The waiting timers that are not, or no longer, the pending timer of their token.
  function Strays(s: State): set<nat>
    requires s.pending.Some?
  {
    set i | i in Waiting(s) && !(s.timers[i].token in s.pending.value && s.pending.value[s.timers[i].token] == i)
  }

  /** In every uncancelled run the waiting timers are the pending entries and the strays; so the cap bounds
      the timers exactly as long as there are no more strays than free places in the map. */
  lemma WaitingCount(cfg: Config, actions: seq<Action>)
    requires !Run(cfg, actions).cancelled
    ensures var s := Run(cfg, actions);
      && s.pending.Some? && |Waiting(s)| == |s.pending.value| + |Strays(s)|
      && (|Waiting(s)| <= cfg.maxPending <==> |Strays(s)| <= cfg.maxPending - |s.pending.value|)
  {
    hide Run;
    var s := Run(cfg, actions);
    RunIsSafe(cfg, actions);
    var held := Waiting(s) - Strays(s);
    assert Waiting(s) == held + Strays(s);
    SameSize(held, s);
    forall t ensures t in s.pending.value.Keys <==> t in set i | i in held :: s.timers[i].token {
      if t in s.pending.value {
        assert s.pending.value[t] in held;
      }
    }
    assert s.pending.value.Keys == set i | i in held :: s.timers[i].token;
  }

  /** In a clean uncancelled run there are no strays, and the cap on pending entries is a cap on waiting
      timers. */
  lemma CapBoundsTimers(cfg: Config, actions: seq<Action>)
    requires Clean(cfg, actions) && !Run(cfg, actions).cancelled
    ensures Run(cfg, actions).pending.Some? && Strays(Run(cfg, actions)) == {}
    ensures |Waiting(Run(cfg, actions))| <= cfg.maxPending
  {
    hide Run;
    CleanRunsWait(cfg, actions);
    RunIsSafe(cfg, actions);
    WaitingCount(cfg, actions);
  }

  // Timers of distinct tokens are as many as their tokens.
  lemma {:induction false} SameSize(ids: set<nat>, s: State)
    requires forall i :: i in ids ==> i < |s.timers|
    requires forall i, j :: i in ids && j in ids && s.timers[i].token == s.timers[j].token ==> i == j
    ensures |set i | i in ids :: s.timers[i].token| == |ids|
    decreases |ids|
  {
    if ids != {} {
      var x :| x in ids;
      SameSize(ids - {x}, s);
      var rest := set i | i in ids - {x} :: s.timers[i].token;
      assert (set i | i in ids :: s.timers[i].token) == rest + {s.timers[x].token};
      assert s.timers[x].token !in rest;
    }
  }

  // ------------------------------------------------------------ what an unclean run can do

  // The timer of "a" fires; before its callback gets the mutex the token is scheduled again.
  function FiredRun(delay: nat): seq<Action> {
    [Request("a"), Tick(delay), Fire(0), Request("a"), Lock(0), Request("a")]
  }

  // The states of that run, one for each action.
  function FiredState(delay: nat, k: nat): State
    requires k <= 6
  {
    var t0, t1 := Timer("a", 0, Armed), Timer("a", delay, Armed);
    var late := Timer("a", 0, Fired);
    var past := Timer("a", 0, Unlocked);
    var l0, l1, l2 := map["a" := Schedule(0, Some(0))], map["a" := Schedule(delay, Some(1))], map["a" := Schedule(delay, Some(2))];
    if k == 0 then Start
    else if k == 1 then State(0, false, Some(map["a" := 0]), [t0], [], l0)
    else if k == 2 then State(delay, false, Some(map["a" := 0]), [t0], [], l0)
    else if k == 3 then State(delay, false, Some(map["a" := 0]), [late], [], l0)
    else if k == 4 then State(delay, false, Some(map["a" := 1]), [late, t1], [], l1)
    else if k == 5 then State(delay, false, Some(map[]), [past, t1], [], l1)
    else State(delay, false, Some(map["a" := 2]), [past, t1, t1], [], l2)
  }

  lemma FiredStep(delay: nat, cap: nat, k: nat)
    requires k < 6 && cap >= 1
    ensures Step(Config(delay, cap), FiredState(delay, k), FiredRun(delay)[k]) == FiredState(delay, k + 1)
  {
    if k == 0 || k == 3 || k == 5 {
      RequestStep(delay, cap, k);
    }
    assert map["a" := 1] - {"a"} == map[];
  }

  lemma RequestStep(delay: nat, cap: nat, k: nat)
    requires cap >= 1 && (k == 0 || k == 3 || k == 5)
    ensures Scheduled(Config(delay, cap), FiredState(delay, k), "a") == FiredState(delay, k + 1)
  {}

  lemma {:induction false} FiredPrefix(delay: nat, cap: nat, k: nat)
    requires k <= 6 && cap >= 1
    ensures Run(Config(delay, cap), FiredRun(delay)[..k]) == FiredState(delay, k)
  {
    hide Step, FiredState;
    if k == 0 {
      assert FiredState(delay, 0) == Start by { FiredStart(delay); }
    } else {
      FiredPrefix(delay, cap, k - 1);
      assert FiredRun(delay)[..k] == FiredRun(delay)[..k - 1] + [FiredRun(delay)[k - 1]];
      RunAppend(Config(delay, cap), Start, FiredRun(delay)[..k - 1], FiredRun(delay)[k - 1]);
      FiredStep(delay, cap, k - 1);
    }
  }

  lemma FiredStart(delay: nat)
    ensures FiredState(delay, 0) == Start
  {}

  // Other tokens, all different: "b", "bb", ...
  function Other(n: nat): string {
    seq(n, _ => 'b')
  }

  // The same run, and then requests for n other tokens.
  function CrowdedRun(delay: nat, n: nat): seq<Action> {
    if n == 0 then FiredRun(delay) else CrowdedRun(delay, n - 1) + [Request(Other(n))]
  }

  ghost predicate CrowdedIn(s: State, delay: nat, n: nat) {
    && s.now == delay && !s.cancelled && s.deletes == [] && "a" in s.latest && s.latest["a"].at == delay
    && s.pending.Some? && |s.pending.value| == n + 1
    && (forall t :: t in s.pending.value ==> t == "a" || exists m :: 1 <= m <= n && t == Other(m))
    && |s.timers| == n + 3 && s.timers[0] == Timer("a", 0, Unlocked)
    && (forall i :: 1 <= i < n + 3 ==> s.timers[i].armedAt == delay && s.timers[i].phase.Armed?)
  }

  lemma ScheduledNew(cfg: Config, s: State, token: string)
    requires !s.cancelled && s.pending.Some? && token !in s.pending.value && |s.pending.value| < cfg.maxPending
    ensures Step(cfg, s, Request(token)) == s.(
      pending := Some(s.pending.value[token := |s.timers|]),
      timers := s.timers + [Timer(token, s.now, Armed)],
      latest := s.latest[token := Schedule(s.now, Some(|s.timers|))])
  {
    assert s.pending.value - {token} == s.pending.value;
  }

  lemma OtherIsNew(s: State, delay: nat, n: nat)
    requires CrowdedIn(s, delay, n)
    ensures Other(n + 1) != "a" && Other(n + 1) !in s.pending.value
  {
    var token := Other(n + 1);
    assert token != "a" by { assert token[0] == 'b'; }
    forall m | 1 <= m <= n ensures token != Other(m) { assert |token| != |Other(m)|; }
  }

  lemma CrowdedStep(delay: nat, cap: nat, s: State, n: nat)
    requires CrowdedIn(s, delay, n) && n + 1 < cap
    ensures CrowdedIn(Step(Config(delay, cap), s, Request(Other(n + 1))), delay, n + 1)
  {
    hide Step, Other;
    var token, cfg := Other(n + 1), Config(delay, cap);
    OtherIsNew(s, delay, n);
    ScheduledNew(cfg, s, token);
    var s' := Step(cfg, s, Request(token));
    assert s'.pending.value.Keys == s.pending.value.Keys + {token};
    forall t | t in s'.pending.value ensures t == "a" || exists m :: 1 <= m <= n + 1 && t == Other(m) {
      assert t in s.pending.value || t == Other(n + 1);
    }
  }

  lemma {:induction false} CrowdedState(delay: nat, cap: nat, n: nat)
    requires n < cap
    ensures CrowdedIn(Run(Config(delay, cap), CrowdedRun(delay, n)), delay, n)
  {
    hide Run, Step, CrowdedIn;
    var cfg := Config(delay, cap);
    if n == 0 {
      FiredPrefix(delay, cap, 6);
      assert FiredRun(delay)[..6] == FiredRun(delay);
      CrowdedFirst(delay);
    } else {
      CrowdedState(delay, cap, n - 1);
      RunThen(cfg, CrowdedRun(delay, n - 1), Request(Other(n)));
      CrowdedStep(delay, cap, Run(cfg, CrowdedRun(delay, n - 1)), n - 1);
    }
  }

  lemma RunThen(cfg: Config, actions: seq<Action>, a: Action)
    ensures Run(cfg, actions + [a]) == Step(cfg, Run(cfg, actions), a)
  {
    RunAppend(cfg, Start, actions, a);
  }

  lemma CrowdedFirst(delay: nat)
    ensures CrowdedIn(FiredState(delay, 6), delay, 0)
  {}

  // All timers but the first are waiting.
  lemma CrowdedWaiting(s: State, delay: nat, n: nat)
    requires CrowdedIn(s, delay, n)
    ensures |Waiting(s)| == n + 2
  {
    assert Waiting(s) == UpTo(n + 2);
  }

  // The numbers from 1 to n.
  function UpTo(n: nat): (r: set<nat>)
    ensures |r| == n && forall i :: i in r <==> 1 <= i <= n
  {
    if n == 0 then {} else UpTo(n - 1) + {n}
  }

  /** Once a Stop has come too late, the cap no longer bounds the timers, whatever it is: an uncancelled
      run has more waiting timers than the cap allows entries, all of them armed and none overdue; and
      the first callback, already past the mutex, may now delete its token a whole `delay` too early. */
  lemma LateStop(delay: nat, cap: nat)
    requires delay > 0 && cap >= 1
    ensures var cfg, s := Config(delay, cap), Run(Config(delay, cap), CrowdedRun(delay, cap - 1));
      && !s.cancelled && |Waiting(s)| > cfg.maxPending
      && (forall i :: i in Waiting(s) ==> s.timers[i].phase.Armed? && s.timers[i].armedAt + delay > s.now)
      && "a" in s.latest && CanDeleteBefore(cfg, s, "a", s.latest["a"].at + delay)
  {
    hide Run, CanDeleteBefore;
    var cfg, actions := Config(delay, cap), CrowdedRun(delay, cap - 1);
    var s := Run(cfg, actions);
    CrowdedState(delay, cap, cap - 1);
    CrowdedWaiting(s, delay, cap - 1);
    EarliestDeletion(cfg, actions, "a", delay + delay);
    assert Live(s.timers[0].phase) && Ready(cfg, s, 0) == delay;
  }
}

/** The deleter as it runs: fields under the mutex, and the callback of each timer in its steps. */
module DelayService {
  import opened Wrappers
  import opened DelayDelete

  class TokenDelayDeleter {
    const cfg: Config
    var now: int
    var cancelled: bool
    var pending: Option<map<string, nat>>
    var timers: seq<Timer>
    ghost var deletes: seq<Deletion>
    ghost var latest: map<string, DelayDelete.Schedule>

    ghost function View(): State
      reads this
    {
      State(now, cancelled, pending, timers, deletes, latest)
    }

    ghost predicate Valid()
      reads this
    {
      Inv(cfg, View())
    }

    // StartDelayDeleter: a non-positive cap falls back to the default.
    constructor (delay: nat, maxPending: int)
      ensures Valid() && View() == Start
      ensures cfg == Config(delay, if maxPending <= 0 then 4096 else maxPending)
    {
      cfg := Config(delay, if maxPending <= 0 then 4096 else maxPending);
      now, cancelled, pending, timers := 0, false, Some(map[]), [];
      deletes, latest := [], map[];
    }

    method DeleteNow(token: string, ghost timer: Option<nat>, ghost scheduledAt: int)
      modifies this`deletes
      ensures deletes == old(deletes) + [Deletion(token, now, timer, scheduledAt)]
    {
      deletes := deletes + [Deletion(token, now, timer, scheduledAt)];
    }

    method Stop(id: nat)
      modifies this`timers
      ensures timers == StopTimer(old(timers), id)
    {
      if id < |timers| && timers[id].phase.Armed? {
        timers := timers[id := timers[id].(phase := Stopped)];
      }
    }

    method Schedule(token: string)
      requires Valid()
      modifies this
      ensures Valid() && View() == Scheduled(cfg, old(View()), token)
    {
      hide Inv, TimersOk, LatestOk, StopTimer;
      ghost var s := View();
      ScheduledKeeps(cfg, s, token);
      InvParts(cfg, s);
      if cancelled { return; }
      DropEntry(token);
      if |pending.value| >= cfg.maxPending {
        DeleteNow(token, None, now);
        latest := latest[token := DelayDelete.Schedule(now, None)];
      } else {
        latest := latest[token := DelayDelete.Schedule(now, Some(|timers|))];
        pending := Some(pending.value[token := |timers|]);
        timers := timers + [Timer(token, now, Armed)];
      }
      assert View() == Scheduled(cfg, s, token);
    }

    // Stop the token's pending timer, if there is one, and forget it.
    method DropEntry(token: string)
      requires pending.Some?
      modifies this`pending, this`timers
      ensures pending == Some(old(pending).value - {token})
      ensures timers == if token in old(pending).value then StopTimer(old(timers), old(pending).value[token]) else old(timers)
    {
      if token in pending.value {
        Stop(pending.value[token]);
        pending := Some(pending.value - {token});
      } else {
        assert pending.value - {token} == pending.value;
      }
    }

    // The callback of a timer that has fired: take the mutex and remove the token's entry, whoever
    // put it there; on a nil map that is a no-op.
    method CallbackLock(id: nat)
      requires Valid() && InPhase(View(), id, Fired)
      modifies this
      ensures Valid() && View() == Locked(old(View()), id)
      ensures pending.Some? <==> old(pending).Some?
      ensures pending.Some? ==> pending.value == old(pending).value - {old(timers)[id].token}
      ensures timers == old(timers)[id := old(timers)[id].(phase := Unlocked)]
    {
      LockKeeps(cfg, View(), id);
      if pending.Some? {
        pending := Some(pending.value - {timers[id].token});
      }
      timers := timers[id := timers[id].(phase := Unlocked)];
    }

    // Then, without the mutex: stop if the context is done.
    method CallbackCheck(id: nat)
      requires Valid() && InPhase(View(), id, Unlocked)
      modifies this
      ensures Valid() && View() == Step(cfg, old(View()), Check(id))
    {
      CheckKeeps(cfg, View(), id);
      if cancelled {
        timers := timers[id := timers[id].(phase := Done)];
      } else {
        timers := timers[id := timers[id].(phase := Checked)];
      }
    }

    // And delete.
    method CallbackDelete(id: nat)
      requires Valid() && InPhase(View(), id, Checked)
      modifies this
      ensures Valid() && View() == Removed(old(View()), id)
    {
      RemoveKeeps(cfg, View(), id);
      var token := timers[id].token;
      DeleteNow(token, Some(id), latest[token].at);
      timers := timers[id := timers[id].(phase := Done)];
    }

    method StopAll()
      requires Valid() && cancelled
      modifies this
      ensures Valid() && View() == Step(cfg, old(View()), DelayDelete.StopAll) && pending == None
      ensures |timers| == |old(timers)|
      ensures forall i :: 0 <= i < |timers| ==>
        timers[i] == if IsPending(old(View()), i) && old(timers)[i].phase.Armed?
                     then old(timers)[i].(phase := Stopped) else old(timers)[i]
    {
      hide Inv, AllStopped, StopTimer;
      ghost var s := View();
      if pending.None? { return; }
      StopAllKeeps(cfg, s);
      StopAllStops(cfg, s);
      var rest := pending.value.Values;
      ghost var all := rest;
      StopNone(s.timers);
      while rest != {}
        invariant rest <= all && timers == AllStopped(s.timers, all - rest)
        invariant View() == s.(timers := timers)
      {
        var id :| id in rest;
        StopOne(s.timers, all - rest, id);
        assert all - (rest - {id}) == (all - rest) + {id};
        Stop(id);
        rest := rest - {id};
      }
      assert all - rest == all;
      pending := None;
    }
  }

  lemma StopNone(timers: seq<Timer>)
    ensures AllStopped(timers, {}) == timers
  {}

  lemma StopOne(timers: seq<Timer>, stopped: set<nat>, id: nat)
    ensures StopTimer(AllStopped(timers, stopped), id) == AllStopped(timers, stopped + {id})
  {}
}
