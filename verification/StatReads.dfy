/** What pathStats and tokenStats report, and what the reports say about the recorded events. */
module StatReads {
  import opened Wrappers
  import opened Redis
  import opened StatKeys
  import opened Clock
  import opened Decimal
  import opened Sorting
  import opened Sums
  import opened Recording
  import opened StatSystem
  import opened StatProofs

  // HGETALL hands the counters out as text.
  function HGetAll(slot: Option<Slot>): map<string, string> {
    var fields := Fields(slot);
    map f | f in fields :: FormatInt(fields[f])
  }

  // ------------------------------------------------------------ summarizeHours

  // What one field contributes to one hour: nothing when its name or its value does not parse.
  function Weight(buckets: map<string, string>, hour: int): string -> int {
    f => if f in buckets && ParseInt(f) == Some(hour) && ParseInt(buckets[f]).Some?
      then ParseInt(buckets[f]).value else 0
  }

  // What some of the fields contribute to one hour.
  ghost function PartTotal(buckets: map<string, string>, fields: set<string>, hour: int): int {
    SumSet(fields, Weight(buckets, hour))
  }

  ghost function HourTotal(buckets: map<string, string>, hour: int): int {
    PartTotal(buckets, buckets.Keys, hour)
  }

  ghost function Histogram(buckets: map<string, string>, nowHour: int): (r: seq<int>)
    ensures |r| == WINDOW_HOURS
    ensures forall i :: 0 <= i < WINDOW_HOURS ==> r[i] == HourTotal(buckets, nowHour - WINDOW_HOURS + 1 + i)
  {
    seq(WINDOW_HOURS, i requires 0 <= i < WINDOW_HOURS => HourTotal(buckets, nowHour - WINDOW_HOURS + 1 + i))
  }

  lemma SumSeqBump(s: seq<int>, i: nat, d: int)
    requires i < |s|
    ensures SumSeq(s[i := s[i] + d]) == SumSeq(s) + d
  {
    var s' := s[i := s[i] + d];
    if i == |s| - 1 {
      assert s'[..|s| - 1] == s[..|s| - 1];
    } else {
      assert s'[..|s| - 1] == s[..|s| - 1][i := s[i] + d];
      SumSeqBump(s[..|s| - 1], i, d);
    }
  }

  lemma SumSeqZero(s: seq<int>)
    requires forall i :: 0 <= i < |s| ==> s[i] == 0
    ensures SumSeq(s) == 0
  {}

  /** summarizeHours: the 48 slots, oldest first, and their total, whatever the hash holds. */
  method SummarizeHours(buckets: map<string, string>, nowHour: int) returns (count48h: int, hourly: seq<int>)
    ensures hourly == Histogram(buckets, nowHour)
    ensures count48h == SumSeq(hourly)
  {
    hide ParseInt, PartTotal, SumSeq;
    hourly := seq(WINDOW_HOURS, _ => 0);
    PartTotalEmpty(buckets);
    SumSeqZero(hourly);
    count48h := 0;
    var sinceHour := nowHour - WINDOW_HOURS + 1;
    var rest := buckets.Keys;
    assert buckets.Keys - rest == {};
    while rest != {}
      invariant rest <= buckets.Keys && |hourly| == WINDOW_HOURS
      invariant count48h == SumSeq(hourly)
      invariant forall i :: 0 <= i < WINDOW_HOURS ==> hourly[i] == PartTotal(buckets, buckets.Keys - rest, sinceHour + i)
    {
      var field :| field in rest;
      ghost var done := buckets.Keys - rest;
      PartTotalAdd(buckets, done, field);
      rest := rest - {field};
      assert buckets.Keys - rest == done + {field};
      var h := ParseInt(field);
      if h.None? { continue; }
      if h.value < sinceHour || h.value > nowHour { continue; }
      var c := ParseInt(buckets[field]);
      if c.None? { continue; }
      SumSeqBump(hourly, h.value - sinceHour, c.value);
      hourly := hourly[h.value - sinceHour := hourly[h.value - sinceHour] + c.value];
      count48h := count48h + c.value;
    }
    assert buckets.Keys - rest == buckets.Keys;
  }

  lemma PartTotalEmpty(buckets: map<string, string>)
    ensures forall h :: PartTotal(buckets, {}, h) == 0
  {}

  lemma PartTotalAdd(buckets: map<string, string>, done: set<string>, field: string)
    requires field !in done
    ensures forall h :: PartTotal(buckets, done + {field}, h) == PartTotal(buckets, done, h) + Weight(buckets, h)(field)
  {
    forall h ensures PartTotal(buckets, done + {field}, h) == PartTotal(buckets, done, h) + Weight(buckets, h)(field) {
      SumAdd(done, field, Weight(buckets, h));
    }
  }

  /** A field of the hash adds its value to the slot of its hour when both are numbers, and nothing otherwise. */
  lemma HourTotalAdds(buckets: map<string, string>, field: string, value: string, hour: int)
    requires field !in buckets
    ensures HourTotal(map[], hour) == 0
    ensures HourTotal(buckets[field := value], hour) == HourTotal(buckets, hour)
      + (if ParseInt(field) == Some(hour) && ParseInt(value).Some? then ParseInt(value).value else 0)
  {
    hide ParseInt;
    var more := buckets[field := value];
    assert more.Keys == buckets.Keys + {field};
    SumAdd(buckets.Keys, field, Weight(more, hour));
    SumEqual(buckets.Keys, Weight(more, hour), Weight(buckets, hour));
  }

  // On a hash that record wrote, a slot is the value of that hour's own field.
  lemma HourTotalIsBucket(slot: Option<Slot>, now: Time, hour: int)
    requires forall f :: f in Fields(slot) ==> HourField(f, now)
    ensures HourTotal(HGetAll(slot), hour) == Bucket(slot, hour)
  {
    var buckets, f := HGetAll(slot), FormatInt(hour);
    ParseInverse(hour);
    if f in buckets {
      ParseInverse(Fields(slot)[f]);
      SumRemove(buckets.Keys, f, Weight(buckets, hour));
      SumZero(buckets.Keys - {f}, Weight(buckets, hour));
    } else {
      SumZero(buckets.Keys, Weight(buckets, hour));
    }
  }

  // ------------------------------------------------------------ the reports

  datatype Report = Report(count: int, count48h: int, ips: seq<string>, uas: seq<string>, paths: seq<string>, hourly: seq<int>)

  // One pipeline of reads for a subject; `at` is the clock reading the handler took first.
  ghost function ReadSubject(db: Db, sub: Subject, at: Time): (r: Report)
    ensures |r.hourly| == WINDOW_HOURS
  {
    var main := Fields(Fetch(db, Name(Main(sub))));
    var hourly := Histogram(HGetAll(Fetch(db, Name(Hours(sub)))), HourBucket(at));
    Report(
      if "count" in main then main["count"] else 0,
      SumSeq(hourly),
      Ascending(RangeFrom(Fetch(db, Name(Ips(sub))), FirstSecond(at))),
      Ascending(RangeFrom(Fetch(db, Name(Uas(sub))), FirstSecond(at))),
      if sub.Token? then Ascending(RangeFrom(Fetch(db, Name(TokenPaths(sub.name))), FirstSecond(at))) else [],
      hourly)
  }

  // The tokens tokenStats goes through.
  function ListedTokens(db: Db, at: Time): set<string> {
    RangeFrom(Fetch(db, Name(TokenIndex)), FirstSecond(at))
  }

  // The paths pathStats goes through when a scan returned `keys`.
  function ListedPaths(keys: seq<string>): set<string> {
    set i | 0 <= i < |keys| && IsMainKey(keys[i]) :: Strings.TrimPrefix(keys[i], "stats::")
  }
}
