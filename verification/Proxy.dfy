/** The caching proxy: the lookup of the 4xx cache, then of the 200 cache, then the upstream, whose reply
    may be stored. Requests interleave; a key stands for the printed cache key. */
module Proxy {
  import opened Wrappers
  import opened TtlCache
  import opened BodyCapture

  type Header = map<string, seq<string>>

  datatype Page = Page(status: int, header: Header, body: Bytes)

  // The upstream writes a response, with these header fields at the end, or panics on the way.
  datatype Upstream = Reply(header: Header, calls: seq<Call>) | Panic(calls: seq<Call>)

  datatype Answer = Forbidden | FromCache(page: Page) | Relayed(sent: Bytes) | Aborted

  datatype Config = Config(ttl200: int, ttl4xx: int, maxBodyBytes: int)

  datatype Caches = Caches(pages: Table<Page>, refusals: Table<()>)

  function StatusCode(c: Capture): int {
    if c.status == 0 then OK else c.status
  }

  // What storeResponse keeps of a reply: a page, a refusal, or nothing.
  datatype Kept = KeepPage(page: Page) | KeepRefusal | KeepNothing

  function Keeps(cfg: Config, header: Header, calls: seq<Call>): Kept {
    KeepsOf(header, After(cfg.maxBodyBytes, calls))
  }

  function KeepsOf(header: Header, c: Capture): Kept {
    if c.status != 0 && c.Cacheable() && StatusCode(c) == OK then KeepPage(Page(OK, header, c.body))
    else if 400 <= StatusCode(c) < 500 then KeepRefusal
    else KeepNothing
  }

  function Stored(cfg: Config, c: Caches, key: string, kept: Kept, at: int): Caches {
    match kept
    case KeepPage(page) => c.(pages := c.pages[key := Entry(page, at + cfg.ttl200)])
    case KeepRefusal => c.(refusals := c.refusals[key := Entry((), at + cfg.ttl4xx)])
    case KeepNothing => c
  }

  /** A kept page is a faithful copy: a reply whose last recorded status is 200, with the whole body the
      upstream wrote and the client received, not empty and within the limit. A refusal is kept for the
      recorded statuses from 400 to 499, whatever the body. */
  lemma KeptPageIsWhole(cfg: Config, header: Header, calls: seq<Call>)
    ensures Keeps(cfg, header, calls).KeepPage? <==>
      After(cfg.maxBodyBytes, calls).status == 200
      && cfg.maxBodyBytes > 0 && 0 < |Written(calls)| <= cfg.maxBodyBytes && !BeganFull(cfg.maxBodyBytes, calls)
    ensures Keeps(cfg, header, calls).KeepPage? ==>
      Keeps(cfg, header, calls).page == Page(200, header, Written(calls))
    ensures Keeps(cfg, header, calls).KeepRefusal? <==> 400 <= After(cfg.maxBodyBytes, calls).status <= 499
  {
    CacheableIsWhole(cfg.maxBodyBytes, calls);
  }

  // ------------------------------------------------------------ one request at a time

  // A request: the clock at the two lookups and at the end of the upstream's reply.
  datatype Query = Query(key: string, at4xx: int, at200: int, upstream: Upstream, done: int)

  function Asked(cfg: Config, c: Caches, q: Query): Caches {
    if Lookup(c.refusals, q.key, q.at4xx).Some? then c
    else
      var c1 := c.(refusals := AfterGet(c.refusals, q.key, q.at4xx));
      if Lookup(c.pages, q.key, q.at200).Some? then c1
      else
        var c2 := c1.(pages := AfterGet(c.pages, q.key, q.at200));
        match q.upstream
        case Panic(_) => c2
        case Reply(header, calls) => Stored(cfg, c2, q.key, Keeps(cfg, header, calls), q.done)
  }

  function Answered(cfg: Config, c: Caches, q: Query): Answer {
    if Lookup(c.refusals, q.key, q.at4xx).Some? then Forbidden
    else
      var hit := Lookup(c.pages, q.key, q.at200);
      if hit.Some? then FromCache(hit.value)
      else match q.upstream
        case Panic(_) => Aborted
        case Reply(_, calls) => Relayed(Written(calls))
  }

  datatype Op = Ask(q: Query) | Sweep200(at: int) | Sweep4xx(at: int)

  function Played(cfg: Config, c: Caches, ops: seq<Op>): Caches {
    if ops == [] then c
    else
      var before := Played(cfg, c, ops[..|ops| - 1]);
      match ops[|ops| - 1]
      case Ask(q) => Asked(cfg, before, q)
      case Sweep200(at) => before.(pages := Swept(before.pages, at))
      case Sweep4xx(at) => before.(refusals := Swept(before.refusals, at))
  }

  // Every lookup of this key happens by the instant, and every sweep before it.
  predicate WithinLife(ops: seq<Op>, key: string, instant: int) {
    forall i :: 0 <= i < |ops| ==>
      match ops[i]
      case Ask(q) => q.key == key ==> q.at4xx <= instant && q.at200 <= instant
      case Sweep200(at) => at < instant
      case Sweep4xx(at) => at < instant
  }

  lemma {:induction false} PageStays(cfg: Config, c: Caches, ops: seq<Op>, key: string, entry: Entry<Page>)
    requires key in c.pages && c.pages[key] == entry && key !in c.refusals
    requires WithinLife(ops, key, entry.expiresAt)
    ensures var s := Played(cfg, c, ops);
      key in s.pages && s.pages[key] == entry && key !in s.refusals
  {
    if ops != [] {
      PageStays(cfg, c, ops[..|ops| - 1], key, entry);
    }
  }

  lemma {:induction false} RefusalStays(cfg: Config, c: Caches, ops: seq<Op>, key: string, expiry: int)
    requires key in c.refusals && c.refusals[key].expiresAt == expiry
    requires WithinLife(ops, key, expiry)
    ensures var s := Played(cfg, c, ops); key in s.refusals && s.refusals[key].expiresAt == expiry
  {
    if ops != [] {
      RefusalStays(cfg, c, ops[..|ops| - 1], key, expiry);
    }
  }

  // The request reached the upstream, and its reply is one that is stored.
  ghost predicate Kept200(cfg: Config, c: Caches, q: Query) {
    && Answered(cfg, c, q).Relayed? && After(cfg.maxBodyBytes, q.upstream.calls).status == 200
    && cfg.maxBodyBytes > 0 && 0 < |Written(q.upstream.calls)| <= cfg.maxBodyBytes
    && !BeganFull(cfg.maxBodyBytes, q.upstream.calls)
  }

  predicate Kept4xx(cfg: Config, c: Caches, q: Query) {
    Answered(cfg, c, q).Relayed? && 400 <= After(cfg.maxBodyBytes, q.upstream.calls).status <= 499
  }

  /** One request after another: once a 200 is stored, and up to its expiry, every request for the key
      gets the same status, header and whole body from the cache, never a refusal, and the upstream is
      not asked, whatever other keys do and however often the caches are swept before that instant. */
  lemma SamePageUntilExpiry(cfg: Config, c: Caches, q: Query, ops: seq<Op>, q': Query)
    requires Kept200(cfg, c, q) && q'.key == q.key
    requires WithinLife(ops + [Ask(q')], q.key, q.done + cfg.ttl200)
    ensures Answered(cfg, Played(cfg, Asked(cfg, c, q), ops), q') ==
      FromCache(Page(OK, q.upstream.header, Written(q.upstream.calls)))
  {
    hide Keeps, After, BeganFull;
    KeptPageIsWhole(cfg, q.upstream.header, q.upstream.calls);
    var page := Page(OK, q.upstream.header, Written(q.upstream.calls));
    PrefixBefore(ops, q', q.done + cfg.ttl200);
    PageStays(cfg, Asked(cfg, c, q), ops, q.key, Entry(page, q.done + cfg.ttl200));
  }

  /** And once a 4xx is stored, every request for the key is answered 403 up to its expiry. */
  lemma RefusedUntilExpiry(cfg: Config, c: Caches, q: Query, ops: seq<Op>, q': Query)
    requires Kept4xx(cfg, c, q) && q'.key == q.key
    requires WithinLife(ops + [Ask(q')], q.key, q.done + cfg.ttl4xx)
    ensures Answered(cfg, Played(cfg, Asked(cfg, c, q), ops), q') == Forbidden
  {
    hide Keeps, After;
    KeptPageIsWhole(cfg, q.upstream.header, q.upstream.calls);
    PrefixBefore(ops, q', q.done + cfg.ttl4xx);
    RefusalStays(cfg, Asked(cfg, c, q), ops, q.key, q.done + cfg.ttl4xx);
  }

  lemma PrefixBefore(ops: seq<Op>, q: Query, instant: int)
    requires WithinLife(ops + [Ask(q)], q.key, instant)
    ensures WithinLife(ops, q.key, instant) && q.at4xx <= instant && q.at200 <= instant
  {
    var all := ops + [Ask(q)];
    assert all[|ops|] == Ask(q);
    forall i | 0 <= i < |ops| ensures ops[i] == all[i] {}
  }

  // ------------------------------------------------------------ requests that interleave

  datatype Store<V> = Store(key: string, at: int, value: V)

  // One of the two caches: its table, the map that never evicts, and everything ever stored.
  datatype Tier<V> = Tier(table: Table<V>, full: Table<V>, stores: seq<Store<V>>)

  function EmptyTier<V>(): Tier<V> {
    Tier(map[], map[], [])
  }

  function Put<V>(t: Tier<V>, key: string, value: V, at: int, ttl: int): Tier<V> {
    var entry := Entry(value, at + ttl);
    Tier(t.table[key := entry], t.full[key := entry], t.stores + [Store(key, at, value)])
  }

  // A request that has passed the 4xx lookup (when, and after how many refusals), one that waits for
  // the upstream, and one that is answered.
  datatype Visit =
    | Looking(key: string, at: int, refusals: nat)
    | Forwarding(key: string)
    | Served(answer: Answer)

  datatype State = State(now: int, pages: Tier<Page>, refusals: Tier<()>, visits: map<nat, Visit>)

  datatype Action =
    | Pass(to: int)
    | Look4xx(r: nat, key: string)
    | Look200(r: nat)
    | Finish(r: nat, upstream: Upstream)
    | CleanPages
    | CleanRefusals

  function Start(): State {
    State(0, EmptyTier(), EmptyTier(), map[])
  }

  function Finishing(cfg: Config, s: State, r: nat, key: string, header: Header, calls: seq<Call>): State {
    var served := s.(visits := s.visits[r := Served(Relayed(Written(calls)))]);
    match Keeps(cfg, header, calls)
    case KeepPage(page) => served.(pages := Put(s.pages, key, page, s.now, cfg.ttl200))
    case KeepRefusal => served.(refusals := Put(s.refusals, key, (), s.now, cfg.ttl4xx))
    case KeepNothing => served
  }

  function Looked4xx(s: State, r: nat, key: string): State {
    if Lookup(s.refusals.table, key, s.now).Some? then s.(visits := s.visits[r := Served(Forbidden)])
    else s.(refusals := s.refusals.(table := AfterGet(s.refusals.table, key, s.now)),
            visits := s.visits[r := Looking(key, s.now, |s.refusals.stores|)])
  }

  function Looked200(s: State, r: nat, key: string): State {
    var hit := Lookup(s.pages.table, key, s.now);
    if hit.Some? then s.(visits := s.visits[r := Served(FromCache(hit.value))])
    else s.(pages := s.pages.(table := AfterGet(s.pages.table, key, s.now)),
            visits := s.visits[r := Forwarding(key)])
  }

  function Step(cfg: Config, s: State, a: Action): State {
    match a
    case Pass(to) => if to < s.now then s else s.(now := to)
    case Look4xx(r, key) => if r in s.visits then s else Looked4xx(s, r, key)
    case Look200(r) => if r in s.visits && s.visits[r].Looking? then Looked200(s, r, s.visits[r].key) else s
    case Finish(r, upstream) =>
      if r !in s.visits || !s.visits[r].Forwarding? then s
      else if upstream.Panic? then s.(visits := s.visits[r := Served(Aborted)])
      else Finishing(cfg, s, r, s.visits[r].key, upstream.header, upstream.calls)
    case CleanPages => s.(pages := s.pages.(table := Swept(s.pages.table, s.now)))
    case CleanRefusals => s.(refusals := s.refusals.(table := Swept(s.refusals.table, s.now)))
  }

  function RunFrom(cfg: Config, s: State, actions: seq<Action>): State {
    if actions == [] then s
    else Step(cfg, RunFrom(cfg, s, actions[..|actions| - 1]), actions[|actions| - 1])
  }

  function Run(cfg: Config, actions: seq<Action>): State {
    RunFrom(cfg, Start(), actions)
  }

  // Store i is the last one for its key.
  predicate Latest<V>(stores: seq<Store<V>>, i: int) {
    0 <= i < |stores| && forall j :: i < j < |stores| ==> stores[j].key != stores[i].key
  }

  predicate IsLatest<V(==)>(stores: seq<Store<V>>, i: int, key: string, value: V, expiry: int, ttl: int) {
    Latest(stores, i) && stores[i] == Store(key, expiry - ttl, value)
  }

  ghost predicate TierOk<V(!new)>(t: Tier<V>, ttl: int, now: int) {
    && Tracks(t.table, t.full, now)
    && (forall i :: 0 <= i < |t.stores| ==>
          t.stores[i].at <= now && t.stores[i].key in t.full
          && t.stores[i].at + ttl <= t.full[t.stores[i].key].expiresAt)
    && (forall key :: key in t.full ==>
          exists i :: IsLatest(t.stores, i, key, t.full[key].value, t.full[key].expiresAt, ttl))
  }

  lemma PutKeeps<V(!new)>(t: Tier<V>, key: string, value: V, ttl: int, now: int)
    requires TierOk(t, ttl, now)
    ensures TierOk(Put(t, key, value, now, ttl), ttl, now)
  {
    var t' := Put(t, key, value, now, ttl);
    forall k | k in t'.full
      ensures exists i :: IsLatest(t'.stores, i, k, t'.full[k].value, t'.full[k].expiresAt, ttl)
    {
      if k == key {
        assert IsLatest(t'.stores, |t.stores|, k, value, now + ttl, ttl);
      } else {
        var i :| IsLatest(t.stores, i, k, t.full[k].value, t.full[k].expiresAt, ttl);
        assert t'.stores[i] == t.stores[i];
        assert IsLatest(t'.stores, i, k, t'.full[k].value, t'.full[k].expiresAt, ttl);
      }
    }
  }

  lemma SameStoresKeep<V(!new)>(t: Tier<V>, table: Table<V>, ttl: int, now: int, later: int)
    requires TierOk(t, ttl, now) && now <= later && Tracks(table, t.full, later)
    ensures TierOk(t.(table := table), ttl, later)
  {}

  ghost predicate Inv(cfg: Config, s: State) {
    TierOk(s.pages, cfg.ttl200, s.now) && TierOk(s.refusals, cfg.ttl4xx, s.now)
  }

  lemma StepKeeps(cfg: Config, s: State, a: Action)
    requires Inv(cfg, s)
    ensures Inv(cfg, Step(cfg, s, a))
  {
    hide Keeps, TierOk, Lookup;
    TierTracks(s.pages, cfg.ttl200, s.now);
    TierTracks(s.refusals, cfg.ttl4xx, s.now);
    var s' := Step(cfg, s, a);
    match a {
      case Pass(_) =>
        SameStoresKeep(s.pages, s.pages.table, cfg.ttl200, s.now, s'.now);
        SameStoresKeep(s.refusals, s.refusals.table, cfg.ttl4xx, s.now, s'.now);
      case Finish(r, upstream) =>
        if r in s.visits && s.visits[r].Forwarding? && upstream.Reply? {
          var kept := Keeps(cfg, upstream.header, upstream.calls);
          if kept.KeepPage? { PutKeeps(s.pages, s.visits[r].key, kept.page, cfg.ttl200, s.now); }
          if kept.KeepRefusal? { PutKeeps(s.refusals, s.visits[r].key, (), cfg.ttl4xx, s.now); }
        }
      case _ =>
        SameStoresKeep(s.pages, s'.pages.table, cfg.ttl200, s.now, s.now);
        SameStoresKeep(s.refusals, s'.refusals.table, cfg.ttl4xx, s.now, s.now);
    }
  }

  lemma TierTracks<V(!new)>(t: Tier<V>, ttl: int, now: int)
    requires TierOk(t, ttl, now)
    ensures Tracks(t.table, t.full, now)
  {}

  lemma {:induction false} RunIsOk(cfg: Config, actions: seq<Action>)
    ensures Inv(cfg, Run(cfg, actions))
  {
    hide Step;
    if actions != [] {
      RunIsOk(cfg, actions[..|actions| - 1]);
      StepKeeps(cfg, Run(cfg, actions[..|actions| - 1]), actions[|actions| - 1]);
    }
  }

  // Every store for this key is at least its time to live in the past.
  predicate AllExpired<V>(stores: seq<Store<V>>, key: string, ttl: int, now: int) {
    forall i :: 0 <= i < |stores| && stores[i].key == key ==> stores[i].at + ttl <= now
  }

  lemma LookupOutcome<V(!new)>(t: Tier<V>, key: string, ttl: int, now: int)
    requires TierOk(t, ttl, now)
    ensures Lookup(t.table, key, now).Some? ==>
      exists i :: Latest(t.stores, i) && t.stores[i].key == key && now <= t.stores[i].at + ttl
                  && Lookup(t.table, key, now) == Some(t.stores[i].value)
    ensures Lookup(t.table, key, now).None? ==> AllExpired(t.stores, key, ttl, now)
  {}

  /** However requests interleave, one that goes on to the upstream does so at least ttl200 after every
      200 stored for its key, and passed the 4xx lookup at least ttl4xx after every 4xx stored for it
      by then; one that is not forwarded gets the last page stored for its key, not yet expired. */
  lemma UpstreamSpacing(cfg: Config, actions: seq<Action>, r: nat)
    requires var s := Run(cfg, actions); r in s.visits && s.visits[r].Looking?
    ensures var s := Run(cfg, actions);
      var key := s.visits[r].key;
      var visit := Step(cfg, s, Look200(r)).visits[r];
      && (visit.Forwarding? || (visit.Served? && visit.answer.FromCache?))
      && (visit.Forwarding? ==>
            && AllExpired(s.pages.stores, key, cfg.ttl200, s.now)
            && s.visits[r].refusals <= |s.refusals.stores|
            && AllExpired(s.refusals.stores[..s.visits[r].refusals], key, cfg.ttl4xx, s.visits[r].at))
      && (visit.Served? ==>
            exists i :: Latest(s.pages.stores, i) && s.pages.stores[i].key == key
                        && s.now <= s.pages.stores[i].at + cfg.ttl200
                        && visit.answer.page == s.pages.stores[i].value)
  {
    RunIsOk(cfg, actions);
    var s := Run(cfg, actions);
    LookupOutcome(s.pages, s.visits[r].key, cfg.ttl200, s.now);
    LookedSince(cfg, actions, r);
  }

  /** However requests interleave, one that arrives is refused only under the last 4xx stored for its key,
      not yet expired, and let through only when every 4xx stored for it has expired. */
  lemma RefusalIsJustified(cfg: Config, actions: seq<Action>, r: nat, key: string)
    requires r !in Run(cfg, actions).visits
    ensures var s := Run(cfg, actions);
      var visit := Step(cfg, s, Look4xx(r, key)).visits[r];
      && (visit == Served(Forbidden) || visit.Looking?)
      && (visit.Looking? ==> AllExpired(s.refusals.stores, key, cfg.ttl4xx, s.now))
      && (visit.Served? ==>
            exists i :: Latest(s.refusals.stores, i) && s.refusals.stores[i].key == key
                        && s.now <= s.refusals.stores[i].at + cfg.ttl4xx)
  {
    RunIsOk(cfg, actions);
    LookupOutcome(Run(cfg, actions).refusals, key, cfg.ttl4xx, Run(cfg, actions).now);
  }

  // What the 4xx lookup of a request has established still holds when it comes to the 200 lookup.
  ghost predicate PassedLookup(cfg: Config, s: State, r: nat) {
    r in s.visits && s.visits[r].Looking? ==>
      && s.visits[r].refusals <= |s.refusals.stores|
      && AllExpired(s.refusals.stores[..s.visits[r].refusals], s.visits[r].key, cfg.ttl4xx, s.visits[r].at)
  }

  lemma {:induction false} LookedSince(cfg: Config, actions: seq<Action>, r: nat)
    ensures PassedLookup(cfg, Run(cfg, actions), r)
  {
    hide Step;
    if actions != [] {
      var before, last := actions[..|actions| - 1], actions[|actions| - 1];
      LookedSince(cfg, before, r);
      RunIsOk(cfg, before);
      LookedStep(cfg, Run(cfg, before), last, r);
    }
  }

  lemma LookedStep(cfg: Config, s: State, a: Action, r: nat)
    requires Inv(cfg, s) && PassedLookup(cfg, s, r)
    ensures PassedLookup(cfg, Step(cfg, s, a), r)
  {
    hide Keeps, TierOk, Lookup;
    if a.Look4xx? && a.r == r && r !in s.visits {
      LookupOutcome(s.refusals, a.key, cfg.ttl4xx, s.now);
      assert s.refusals.stores[..|s.refusals.stores|] == s.refusals.stores;
    } else {
      StoresGrow(cfg, s, a);
    }
  }

  lemma StoresGrow(cfg: Config, s: State, a: Action)
    ensures s.refusals.stores <= Step(cfg, s, a).refusals.stores
  {}

  // Store i was made at step k of the run, by a request for its key that was waiting for the upstream:
  // the upstream's reply at that moment, status 200, with its header and its whole body.
  ghost predicate StoredBy(cfg: Config, actions: seq<Action>, store: Store<Page>, k: int) {
    && 0 <= k < |actions| && actions[k].Finish? && actions[k].upstream.Reply?
    && var s, r, reply := Run(cfg, actions[..k]), actions[k].r, actions[k].upstream;
    && r in s.visits && s.visits[r] == Forwarding(store.key) && store.at == s.now
    && After(cfg.maxBodyBytes, reply.calls).status == OK && 0 < |Written(reply.calls)| <= cfg.maxBodyBytes
    && store.value == Page(OK, reply.header, Written(reply.calls))
  }

  /** Every page ever stored is a whole 200 reply of the upstream to a request for that very key, stored at
      the moment the reply ended. */
  lemma {:induction false} StoredPagesAreReplies(cfg: Config, actions: seq<Action>, i: nat)
    requires i < |Run(cfg, actions).pages.stores|
    ensures exists k :: StoredBy(cfg, actions, Run(cfg, actions).pages.stores[i], k)
  {
    hide Step;
    if actions != [] {
      var before, last := actions[..|actions| - 1], actions[|actions| - 1];
      var s := Run(cfg, before);
      PageStoreStep(cfg, s, last);
      assert Run(cfg, actions) == Step(cfg, s, last);
      if i < |s.pages.stores| {
        StoredPagesAreReplies(cfg, before, i);
        var k :| StoredBy(cfg, before, s.pages.stores[i], k);
        assert before[..k] == actions[..k] && before[k] == actions[k];
        assert Run(cfg, actions).pages.stores[i] == s.pages.stores[i];
        assert StoredBy(cfg, actions, s.pages.stores[i], k);
      } else {
        assert StoredBy(cfg, actions, Run(cfg, actions).pages.stores[i], |before|);
      }
    }
  }

  // The page history grows only when a waiting request gets a reply that is kept.
  lemma PageStoreStep(cfg: Config, s: State, a: Action)
    ensures var stores, grown := s.pages.stores, Step(cfg, s, a).pages.stores;
      || grown == stores
      || (&& a.Finish? && a.upstream.Reply? && a.r in s.visits && s.visits[a.r].Forwarding?
          && After(cfg.maxBodyBytes, a.upstream.calls).status == OK && 0 < |Written(a.upstream.calls)| <= cfg.maxBodyBytes
          && grown == stores + [Store(s.visits[a.r].key, s.now, Page(OK, a.upstream.header, Written(a.upstream.calls)))])
  {
    hide Keeps, Lookup;
    if a.Finish? && a.upstream.Reply? {
      KeptPageIsWhole(cfg, a.upstream.header, a.upstream.calls);
    }
  }

  // Refusal store i was made at step k of the run, by a request for its key that was waiting for the
  // upstream: a reply at that moment with a status from 400 to 499.
  ghost predicate RefusedBy(cfg: Config, actions: seq<Action>, store: Store<()>, k: int) {
    && 0 <= k < |actions| && actions[k].Finish? && actions[k].upstream.Reply?
    && var s, r := Run(cfg, actions[..k]), actions[k].r;
    && r in s.visits && s.visits[r] == Forwarding(store.key) && store.at == s.now
    && 400 <= After(cfg.maxBodyBytes, actions[k].upstream.calls).status <= 499
  }

  /** Every refusal ever stored goes back to a 4xx reply to a request for that very key. */
  lemma {:induction false} StoredRefusalsAreReplies(cfg: Config, actions: seq<Action>, i: nat)
    requires i < |Run(cfg, actions).refusals.stores|
    ensures exists k :: RefusedBy(cfg, actions, Run(cfg, actions).refusals.stores[i], k)
  {
    hide Step, After;
    if actions != [] {
      var before, last := actions[..|actions| - 1], actions[|actions| - 1];
      var s := Run(cfg, before);
      StoresExactly(cfg, s, last);
      assert Run(cfg, actions) == Step(cfg, s, last);
      if i < |s.refusals.stores| {
        StoredRefusalsAreReplies(cfg, before, i);
        var k :| RefusedBy(cfg, before, s.refusals.stores[i], k);
        assert before[..k] == actions[..k] && before[k] == actions[k];
        assert Run(cfg, actions).refusals.stores[i] == s.refusals.stores[i];
        assert RefusedBy(cfg, actions, s.refusals.stores[i], k);
      } else {
        assert RefusedBy(cfg, actions, Run(cfg, actions).refusals.stores[i], |before|);
      }
    }
  }

  // A waiting request gets a reply.
  predicate Replies(s: State, a: Action) {
    a.Finish? && a.upstream.Reply? && a.r in s.visits && s.visits[a.r].Forwarding?
  }

  /** Exactly what is stored, step by step: a 4xx reply to a waiting request, as a refusal; a 200 reply
      with a non-empty body within the limit, as a page; and nothing else, be it a panic, a reply with
      another status, without any write or with too long a body, or any other step. */
  lemma StoresExactly(cfg: Config, s: State, a: Action)
    ensures var s' := Step(cfg, s, a);
      if Replies(s, a) && 400 <= After(cfg.maxBodyBytes, a.upstream.calls).status <= 499 then
        && s'.refusals.stores == s.refusals.stores + [Store(s.visits[a.r].key, s.now, ())]
        && s'.refusals.table == s.refusals.table[s.visits[a.r].key := Entry((), s.now + cfg.ttl4xx)]
        && s'.pages == s.pages
      else if Replies(s, a) && After(cfg.maxBodyBytes, a.upstream.calls).status == 200 && cfg.maxBodyBytes > 0
              && 0 < |Written(a.upstream.calls)| <= cfg.maxBodyBytes && !BeganFull(cfg.maxBodyBytes, a.upstream.calls) then
        var page := Page(200, a.upstream.header, Written(a.upstream.calls));
        && s'.pages.stores == s.pages.stores + [Store(s.visits[a.r].key, s.now, page)]
        && s'.pages.table == s.pages.table[s.visits[a.r].key := Entry(page, s.now + cfg.ttl200)]
        && s'.refusals == s.refusals
      else s'.pages.stores == s.pages.stores && s'.refusals.stores == s.refusals.stores
  {
    hide Keeps, Lookup, After, BeganFull, AfterGet;
    if Replies(s, a) {
      KeptPageIsWhole(cfg, a.upstream.header, a.upstream.calls);
    }
  }

  /** So what a client is served from the cache, in any interleaving, is the whole 200 reply that the
      upstream gave to a request for the same key, no longer ago than ttl200, and the last one kept. */
  lemma ServedFromReply(cfg: Config, actions: seq<Action>, r: nat)
    requires var s := Run(cfg, actions); r in s.visits && s.visits[r].Looking?
    requires Step(cfg, Run(cfg, actions), Look200(r)).visits[r].Served?
    ensures var s := Run(cfg, actions);
      var answer := Step(cfg, s, Look200(r)).visits[r].answer;
      answer.FromCache? && exists i, k ::
        && Latest(s.pages.stores, i) && s.pages.stores[i].key == s.visits[r].key
        && s.pages.stores[i].value == answer.page && s.now <= s.pages.stores[i].at + cfg.ttl200
        && StoredBy(cfg, actions, s.pages.stores[i], k)
  {
    hide Run, Step, StoredBy;
    var s := Run(cfg, actions);
    LookIsVisit(cfg, s, r);
    UpstreamSpacing(cfg, actions, r);
    var i :| Latest(s.pages.stores, i) && s.pages.stores[i].key == s.visits[r].key
      && s.now <= s.pages.stores[i].at + cfg.ttl200
      && Step(cfg, s, Look200(r)).visits[r].answer.page == s.pages.stores[i].value;
    StoredPagesAreReplies(cfg, actions, i);
    var k :| StoredBy(cfg, actions, s.pages.stores[i], k);
  }

  lemma LookIsVisit(cfg: Config, s: State, r: nat)
    requires r in s.visits
    ensures r in Step(cfg, s, Look200(r)).visits
  {}

  // The steps of one request with nothing in between.
  function Undisturbed(cfg: Config, s: State, r: nat, q: Query): State {
    var passed := Step(cfg, Step(cfg, s, Action.Pass(q.at4xx)), Look4xx(r, q.key));
    var looked := Step(cfg, Step(cfg, passed, Action.Pass(q.at200)), Look200(r));
    Step(cfg, Step(cfg, looked, Action.Pass(q.done)), Finish(r, q.upstream))
  }

  /** A request that runs alone does what the sequential account says. */
  lemma UndisturbedIsAsked(cfg: Config, s: State, r: nat, q: Query)
    requires r !in s.visits && s.now <= q.at4xx <= q.at200 <= q.done
    ensures var s', c := Undisturbed(cfg, s, r, q), Caches(s.pages.table, s.refusals.table);
      && Caches(s'.pages.table, s'.refusals.table) == Asked(cfg, c, q)
      && r in s'.visits && s'.visits[r] == Served(Answered(cfg, c, q))
  {
    hide Keeps, Lookup, AfterGet, Written, Finishing, Step, Stored;
    PassStep(cfg, s, q.at4xx);
    var s1 := s.(now := q.at4xx);
    Look4xxStep(cfg, s1, r, q.key);
    var s2 := Looked4xx(s1, r, q.key);
    PassStep(cfg, s2, q.at200);
    var s3 := s2.(now := q.at200);
    Look200Step(cfg, s3, r);
    var s4 := Step(cfg, s3, Look200(r));
    PassStep(cfg, s4, q.done);
    FinishStep(cfg, s4.(now := q.done), r, q.upstream);
  }

  lemma PassStep(cfg: Config, s: State, to: int)
    requires s.now <= to
    ensures Step(cfg, s, Action.Pass(to)) == s.(now := to)
  {}

  lemma Look4xxStep(cfg: Config, s: State, r: nat, key: string)
    requires r !in s.visits
    ensures Step(cfg, s, Look4xx(r, key)) == Looked4xx(s, r, key)
  {}

  lemma Look200Step(cfg: Config, s: State, r: nat)
    requires r in s.visits
    ensures Step(cfg, s, Look200(r)) == if s.visits[r].Looking? then Looked200(s, r, s.visits[r].key) else s
  {}

  lemma FinishStep(cfg: Config, s: State, r: nat, upstream: Upstream)
    requires r in s.visits
    ensures var s', c := Step(cfg, s, Finish(r, upstream)), Caches(s.pages.table, s.refusals.table);
      && (!s.visits[r].Forwarding? ==> s' == s)
      && (s.visits[r].Forwarding? ==>
            && r in s'.visits
            && s'.visits[r] == Served(if upstream.Panic? then Aborted else Relayed(Written(upstream.calls)))
            && Caches(s'.pages.table, s'.refusals.table) ==
                if upstream.Panic? then c
                else Stored(cfg, c, s.visits[r].key, Keeps(cfg, upstream.header, upstream.calls), s.now))
  {}
}

/** The handlers of the proxy chain, on the two caches and on the response being written. */
module ProxyService {
  import opened Wrappers
  import opened TtlCache
  import opened BodyCapture
  import opened Proxy

  class CachingProxy {
    const cache200: Memory<Page>
    const cache4xx: Memory<()>
    const cfg: Config

    constructor (cfg: Config)
      ensures this.cfg == cfg && State() == Caches(map[], map[])
      ensures fresh(cache200) && fresh(cache4xx)
    {
      this.cfg := cfg;
      cache200 := new Memory();
      cache4xx := new Memory();
    }

    ghost function State(): Caches
      reads cache200, cache4xx
    {
      Caches(cache200.data, cache4xx.data)
    }

    method StoreResponse(key: string, statusCode: int, bw: BodyCaptureWriter, header: Header, now: int)
      requires statusCode == StatusCode(bw.State())
      modifies cache200, cache4xx
      ensures State() == Stored(cfg, old(State()), key, KeepsOf(header, old(bw.State())), now)
      ensures var c := old(bw.State());
        if c.status == 200 && !c.exceeded && |c.body| > 0 then
          && cache200.data == old(cache200.data)[key := Entry(Page(200, header, c.body), now + cfg.ttl200)]
          && cache4xx.data == old(cache4xx.data)
        else if 400 <= c.status <= 499 then
          && cache4xx.data == old(cache4xx.data)[key := Entry((), now + cfg.ttl4xx)]
          && cache200.data == old(cache200.data)
        else cache200.data == old(cache200.data) && cache4xx.data == old(cache4xx.data)
    {
      var cacheable := bw.Cacheable();
      if bw.status != 0 && cacheable && statusCode == OK {
        cache200.Set(key, Entry(Page(statusCode, header, bw.body), now + cfg.ttl200));
      } else if 400 <= statusCode < 500 {
        cache4xx.Set(key, Entry((), now + cfg.ttl4xx));
      }
    }

    // Middleware4xx, Middleware200, forwardToUpstream and getStatusCode on one request.
    method Handle(q: Query) returns (answer: Answer)
      modifies cache200, cache4xx
      ensures State() == Asked(cfg, old(State()), q)
      ensures answer == Answered(cfg, old(State()), q)
      ensures var pages, refusals := old(cache200.data), old(cache4xx.data);
        answer ==
          if q.key in refusals && q.at4xx <= refusals[q.key].expiresAt then Forbidden
          else if q.key in pages && q.at200 <= pages[q.key].expiresAt then FromCache(pages[q.key].value)
          else if q.upstream.Panic? then Aborted
          else Relayed(Written(q.upstream.calls))
    {
      var refused := cache4xx.Get(q.key, q.at4xx, q.at4xx);
      if refused.Some? {
        return Forbidden;
      }
      var page := cache200.Get(q.key, q.at200, q.at200);
      if page.Some? {
        return FromCache(page.value);
      }
      var bw := new BodyCaptureWriter(cfg.maxBodyBytes);
      bw.Replay(q.upstream.calls);
      if q.upstream.Panic? {
        return Aborted;
      }
      var statusCode := if bw.status == 0 then OK else bw.status;
      ClientGetsAll(cfg.maxBodyBytes, q.upstream.calls);
      StoreResponse(q.key, statusCode, bw, q.upstream.header, q.done);
      answer := Relayed(bw.sent);
    }
  }

  // ------------------------------------------------------------ header fields

  // CloneHeader: fresh slices with the same values, so that no later write to the live header shows in
  // the cached one.
  method CloneHeader(h: map<string, array<string>>) returns (cloned: map<string, array<string>>)
    ensures cloned.Keys == h.Keys
    ensures forall k :: k in h ==> fresh(cloned[k]) && cloned[k][..] == h[k][..]
    ensures forall j, k :: j in h && k in h && j != k ==> cloned[j] != cloned[k]
  {
    cloned := map[];
    var rest := h.Keys;
    while rest != {}
      invariant rest <= h.Keys && cloned.Keys == h.Keys - rest
      invariant forall k :: k in cloned ==> fresh(cloned[k]) && cloned[k][..] == h[k][..]
      invariant forall j, k :: j in cloned && k in cloned && j != k ==> cloned[j] != cloned[k]
    {
      var k :| k in rest;
      var vv := h[k];
      var copyVals := new string[vv.Length](i requires 0 <= i < vv.Length reads vv => vv[i]);
      assert copyVals[..] == vv[..];
      cloned := cloned[k := copyVals];
      rest := rest - {k};
    }
  }

  function ValuesIn(header: Header, k: string): seq<string> {
    if k in header then header[k] else []
  }

  // The canonical form of a header field name, http.CanonicalHeaderKey, is a parameter: all that matters
  // is that it is idempotent.
  ghost predicate Canonizes(canon: string -> string) {
    forall k :: canon(canon(k)) == canon(k)
  }

  class Response {
    var header: Header
    var status: int
    var body: Bytes

    // Header().Del for every field present: exactly the canonical names go.
    method ClearHeader(canon: string -> string)
      requires Canonizes(canon)
      modifies this`header
      ensures header == map k | k in old(header) && canon(k) != k :: old(header)[k]
    {
      var rest := header.Keys;
      while rest != {}
        invariant rest <= header.Keys <= old(header.Keys)
        invariant forall k :: k in header ==> header[k] == old(header)[k]
        invariant forall k :: k in old(header) && canon(k) != k ==> k in header
        invariant forall k :: k in header && k !in rest ==> canon(k) != k
      {
        var k :| k in rest;
        header := header - {canon(k)};
        rest := rest - {k, canon(k)};
      }
    }

    method AddValues(name: string, vv: seq<string>)
      modifies this`header
      ensures header == if vv == [] then old(header) else old(header)[name := ValuesIn(old(header), name) + vv]
    {
      for i := 0 to |vv|
        invariant header == if i == 0 then old(header) else old(header)[name := ValuesIn(old(header), name) + vv[..i]]
      {
        assert vv[..i + 1] == vv[..i] + [vv[i]];
        assert ValuesIn(old(header), name) + vv[..i + 1] == ValuesIn(header, name) + [vv[i]];
        header := header[name := ValuesIn(header, name) + [vv[i]]];
      }
      assert vv[..|vv|] == vv;
    }

    /** writeCache200Response: the status and body of the page; and, when the page's field names are
        canonical, its values and no others under every canonical name. */
    method WriteCached(page: Page, canon: string -> string)
      requires Canonizes(canon)
      modifies this
      ensures status == page.status && body == old(body) + page.body
      ensures (forall k :: k in page.header ==> canon(k) == k) ==>
        forall k :: ValuesIn(header, k) == if canon(k) == k then ValuesIn(page.header, k) else ValuesIn(old(header), k)
    {
      ClearHeader(canon);
      ghost var cleared := header;
      var rest := page.header.Keys;
      while rest != {}
        invariant rest <= page.header.Keys && body == old(body)
        invariant (forall k :: k in page.header ==> canon(k) == k) ==>
          forall k :: ValuesIn(header, k) ==
            ValuesIn(cleared, k) + if k in rest then [] else ValuesIn(page.header, k)
      {
        var k :| k in rest;
        AddValues(canon(k), page.header[k]);
        rest := rest - {k};
      }
      status := page.status;
      body := body + page.body;
    }
  }
}
