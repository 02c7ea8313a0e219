/** The response cache: one in-memory key/value store in which every `put(key, v)`
    also stores the write time under the key `"timestamp_" + key`, and every
    `get(key)` treats an entry older than the time-to-live as absent. Nothing is
    ever evicted: expiry happens only on read. */
module Cache {
  import opened Js
  import Config

  const STAMP_PREFIX: string := "timestamp_"

  /** The time-to-live in milliseconds (`CACHE_TIME` is in minutes). */
  const TTL_MS: int := Config.CACHE_TIME * 60 * 1000

  /** The key under which the write time of `key` is stored. It lives in the
      same keyspace as the keys of the values. */
  function StampKey(key: string): (k: string)
    ensures |k| == |STAMP_PREFIX| + |key|
    ensures HasPrefix(k, STAMP_PREFIX)
  {
    STAMP_PREFIX + key
  }

  type Store = map<string, Cell>

  /** The underlying store's own `get`: the stored value, or nothing. */
  function Lookup(store: Store, key: string): Option<Cell> {
    if key in store then Some(store[key]) else None
  }

  /** The age test of `get`: the mark is a time more than `TTL_MS` before
      `now`. A text mark is taken to subtract to NaN, and a comparison with
      NaN is false. */
  predicate Expired(mark: Cell, now: int) {
    mark.Number? && now - mark.n > TTL_MS
  }

  /** What `get(key)` returns at time `now`. */
  function Read(store: Store, key: string, now: int): Option<Cell>
  {
    match Lookup(store, StampKey(key))
    case None => None
    case Some(mark) =>
      if CellTruthy(mark) && Expired(mark, now) then None
      else if CellTruthy(mark) then Lookup(store, key)
      else None
  }

  /** The store after `put(key, val)` at time `now`. */
  function Write(store: Store, key: string, val: Cell, now: int): Store
  {
    store[StampKey(key) := Number(now)][key := val]
  }

  class TtlCache {
    var store: Store

    constructor ()
      ensures store == map[]
    {
      store := map[];
    }

    /** `get`: reads the write mark, then the value; changes nothing.
        Specified by `Read`, whose properties are the lemmas below. */
    method Get(key: string, now: int) returns (r: Option<Cell>)
      ensures r == Read(store, key, now)
    {
      var mark := Lookup(store, StampKey(key));
      if mark.Some? && CellTruthy(mark.value) && Expired(mark.value, now) {
        r := None;
      } else if mark.Some? && CellTruthy(mark.value) {
        r := Lookup(store, key);
      } else {
        r := None;
      }
    }

    /** `put`: writes the mark, then the value, overwriting both. */
    method Put(key: string, val: Cell, now: int)
      modifies this
      ensures store == Write(old(store), key, val, now)
    {
      store := store[StampKey(key) := Number(now)];
      store := store[key := val];
    }
  }

  /** A key that was never written has no mark, and reads as absent. */
  lemma ReadUnwritten(store: Store, key: string, now: int)
    requires StampKey(key) !in store
    ensures Read(store, key, now) == None
  {
  }

  lemma StampKeyDiffers(key: string)
    ensures StampKey(key) != key
  {
    assert |StampKey(key)| > |key|;
  }

  /** A read after `put(key, val)` at time `t` returns `val` as long as at most
      `TTL_MS` have passed (the bound is inclusive), and nothing afterwards.
      A write at time 0 leaves a falsy mark and is never read back. */
  lemma ReadAfterWrite(store: Store, key: string, val: Cell, t: int, now: int)
    ensures Read(Write(store, key, val, t), key, now) == (if t != 0 && now - t <= TTL_MS then Some(val) else None)
  {
    StampKeyDiffers(key);
  }

  /** An expired entry reads as absent although its value is still stored. */
  lemma ReadExpired(store: Store, key: string, t: int, now: int)
    requires Lookup(store, StampKey(key)) == Some(Number(t)) && t != 0
    requires now - t > TTL_MS
    ensures Read(store, key, now) == None
  {
  }

  /** The last `put` to a key wins, for both its value and its mark. */
  lemma WriteLastWins(store: Store, key: string, v1: Cell, t1: int, v2: Cell, t2: int)
    ensures Write(Write(store, key, v1, t1), key, v2, t2) == Write(store, key, v2, t2)
  {
    StampKeyDiffers(key);
  }

  /** `put(key, val)` leaves what `get(other)` returns unchanged, unless one key
      is the other's mark key (both live in one keyspace). */
  lemma ReadOtherKey(store: Store, key: string, val: Cell, t: int, other: string, now: int)
    requires other != key && other != StampKey(key) && key != StampKey(other)
    ensures Read(Write(store, key, val, t), other, now) == Read(store, other, now)
  {
    StampKeyDiffers(key);
    StampKeyDiffers(other);
    assert StampKey(other) != StampKey(key);
  }

  /** The shared keyspace in action: a `put` of a text that is not a numeral
      (such as an XML document) under the mark key of `other` replaces
      `other`'s write time by a non-numeric value, after which the stored
      value of `other` is served at any time, however old. */
  lemma MarkOverwriteDefeatsExpiry(store: Store, other: string, s: string, t: int, now: int)
    requires other in store && s != "" && s[0] == '<'
    ensures Read(Write(store, StampKey(other), Text(s), t), other, now) == Some(store[other])
  {
    StampKeyDiffers(other);
    StampKeyDiffers(StampKey(other));
    assert |StampKey(StampKey(other))| > |other|;
  }
}
