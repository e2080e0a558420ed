/** The part of Redis the statistics use: hashes of counters and sorted sets, each with an
    optional expiry. Hash values are only ever written by HINCRBY, so the store keeps them as
    integers. A collection that becomes empty is removed together with its expiry, and a command
    sent to a key of the other type fails without changing anything. */
module Redis {
  import opened Wrappers

  datatype Value = Hash(fields: map<string, int>) | ZSet(scores: map<string, int>)

  datatype Slot = Slot(value: Value, expiry: Option<int>)

  type Db = map<string, Slot>

  function Fetch(db: Db, key: string): Option<Slot> {
    if key in db then Some(db[key]) else None
  }

  function Put(db: Db, key: string, slot: Option<Slot>): Db {
    if slot.None? then db - {key} else db[key := slot.value]
  }

  function Fields(slot: Option<Slot>): map<string, int> {
    if slot.Some? && slot.value.value.Hash? then slot.value.value.fields else map[]
  }

  function Scores(slot: Option<Slot>): map<string, int> {
    if slot.Some? && slot.value.value.ZSet? then slot.value.value.scores else map[]
  }

  predicate IsHash(slot: Option<Slot>) {
    slot.Some? ==> slot.value.value.Hash?
  }

  predicate IsZSet(slot: Option<Slot>) {
    slot.Some? ==> slot.value.value.ZSet?
  }

  predicate Expired(slot: Slot, now: int) {
    slot.expiry.Some? && slot.expiry.value <= now
  }

  // Each command as its effect on one slot.

  function Incr(slot: Option<Slot>, field: string): Option<Slot> {
    if !IsHash(slot) then slot
    else
      var fields := Fields(slot);
      var value := if field in fields then fields[field] else 0;
      Some(Slot(Hash(fields[field := value + 1]), if slot.Some? then slot.value.expiry else None))
  }

  function DropFields(slot: Option<Slot>, fields: set<string>): Option<Slot> {
    if slot.None? || slot.value.value.ZSet? then slot
    else
      var rest := Fields(slot) - fields;
      if rest == map[] then None else Some(slot.value.(value := Hash(rest)))
  }

  function AddMember(slot: Option<Slot>, member: string, score: int): Option<Slot> {
    if !IsZSet(slot) then slot
    else Some(Slot(ZSet(Scores(slot)[member := score]), if slot.Some? then slot.value.expiry else None))
  }

  // ZREMRANGEBYSCORE key 0 max: both ends inclusive.
  function TrimScores(slot: Option<Slot>, max: int): Option<Slot> {
    if slot.None? || slot.value.value.Hash? then slot
    else
      var rest := map m | m in Scores(slot) && !(0 <= Scores(slot)[m] <= max) :: Scores(slot)[m];
      if rest == map[] then None else Some(slot.value.(value := ZSet(rest)))
  }

  function SetExpiry(slot: Option<Slot>, at: int): Option<Slot> {
    if slot.None? then None else Some(slot.value.(expiry := Some(at)))
  }

  // The same commands on the whole store.

  function HIncrBy(db: Db, key: string, field: string): Db {
    Put(db, key, Incr(Fetch(db, key), field))
  }

  function HDel(db: Db, key: string, fields: set<string>): Db {
    Put(db, key, DropFields(Fetch(db, key), fields))
  }

  function ZAdd(db: Db, key: string, member: string, score: int): Db {
    Put(db, key, AddMember(Fetch(db, key), member, score))
  }

  function ZRemRangeByScore(db: Db, key: string, max: int): Db {
    Put(db, key, TrimScores(Fetch(db, key), max))
  }

  function Expire(db: Db, key: string, at: int): Db {
    Put(db, key, SetExpiry(Fetch(db, key), at))
  }

  function Del(db: Db, key: string): Db {
    db - {key}
  }

  function Purge(db: Db, now: int): Db {
    map key | key in db && !Expired(db[key], now) :: db[key]
  }

  // Members with a score of at least min, as ZRANGEBYSCORE key min +inf returns them.
  function RangeFrom(slot: Option<Slot>, min: int): set<string> {
    set m | m in Scores(slot) && Scores(slot)[m] >= min
  }
}
