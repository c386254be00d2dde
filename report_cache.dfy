/**
 * The key/value store that caches line-item reports: every key holds a value
 * and the instant it expires (`SETEX`), reads miss once that instant is
 * reached, and `DEL` removes a key.
 */
module ReportCache {

  import opened Wrappers
  import opened Dates
  import opened ReportRows

  const ReportKeyPrefix: string := "campaign:gam-line-item-report:"

  /** A report is kept for one hour. */
  const ReportTtlSeconds: nat := 60 * 60

  /** The one key under which a campaign's line-item report is cached. */
  function ReportCacheKey(campaignId: string): (key: string)
    ensures |key| == |ReportKeyPrefix| + |campaignId|
    ensures key[..|ReportKeyPrefix|] == ReportKeyPrefix
    ensures key[|ReportKeyPrefix|..] == campaignId
  {
    ReportKeyPrefix + campaignId
  }

  /** Distinct campaigns never share a report key. */
  lemma ReportCacheKeyInjective(a: string, b: string)
    ensures ReportCacheKey(a) == ReportCacheKey(b) <==> a == b
  {
    if ReportCacheKey(a) == ReportCacheKey(b) {
      assert a == ReportCacheKey(a)[|ReportKeyPrefix|..];
    }
  }

  datatype Entry = Entry(value: seq<Row>, expiresAt: Time)

  type Store = map<string, Entry>

  /** What a read of `key` at `now` returns: the value until its expiry, afterwards nothing. */
  function Lookup(store: Store, key: string, now: Time): (v: Option<seq<Row>>)
    ensures v.Some? <==> key in store && now < store[key].expiresAt
    ensures v.Some? ==> v.value == store[key].value
  {
    if key in store && now < store[key].expiresAt then Some(store[key].value) else None
  }

  /** The store after `SETEX key ttl value` at `now`. */
  function Written(store: Store, key: string, ttlSeconds: nat, value: seq<Row>, now: Time): (s: Store)
    ensures forall t :: now <= t < now + ttlSeconds * 1000 ==> Lookup(s, key, t) == Some(value)
    ensures forall t :: now + ttlSeconds * 1000 <= t ==> Lookup(s, key, t) == None
    ensures forall k, t :: k != key ==> Lookup(s, k, t) == Lookup(store, k, t)
  {
    store[key := Entry(value, now + ttlSeconds * 1000)]
  }

  /** The store after `DEL key`. */
  function Deleted(store: Store, key: string): (s: Store)
    ensures forall t :: Lookup(s, key, t) == None
    ensures forall k, t :: k != key ==> Lookup(s, k, t) == Lookup(store, k, t)
  {
    store - {key}
  }

  /** A failed store command (the connection refused it). */
  datatype StoreError = StoreError(command: string, key: string)

  /** The shared store client; one instance serves every request. */
  class Cache {
    var entries: Store

    constructor ()
      ensures entries == map[]
    {
      entries := map[];
    }

    /** `GET key`: reads only. */
    method Get(key: string, now: Time) returns (v: Option<seq<Row>>)
      ensures v.Some? <==> key in entries && now < entries[key].expiresAt
      ensures v.Some? ==> v.value == entries[key].value
    {
      if key in entries && now < entries[key].expiresAt {
        v := Some(entries[key].value);
      } else {
        v := None;
      }
    }

    /** `SETEX key ttl value`: replaces any entry under `key`. */
    method SetEx(key: string, ttlSeconds: nat, value: seq<Row>, now: Time)
      modifies this
      ensures entries == Written(old(entries), key, ttlSeconds, value, now)
    {
      entries := entries[key := Entry(value, now + ttlSeconds * 1000)];
    }

    /**
     * `DEL key` at time `now`: reports whether a live (unexpired) entry was
     * removed. When the store does not answer (`reachable` false) the command
     * fails and nothing changes.
     */
    method Del(key: string, reachable: bool, now: Time) returns (r: Result<bool, StoreError>)
      modifies this
      ensures reachable ==> r == Success(Lookup(old(entries), key, now).Some?) && entries == Deleted(old(entries), key)
      ensures !reachable ==> r == Failure(StoreError("DEL", key)) && entries == old(entries)
    {
      if reachable {
        r := Success(key in entries && now < entries[key].expiresAt);
        entries := entries - {key};
      } else {
        r := Failure(StoreError("DEL", key));
      }
    }
  }
}
