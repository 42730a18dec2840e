/**
  The name cache of the handler: go-cache created with a one-hour default
  expiration and a ten-minute cleanup interval. A clock reading is an
  integer number of nanoseconds, as go-cache's `UnixNano` deadlines are.
  An entry is found until its deadline has passed; writing an entry sets
  its deadline to the write time plus the default expiration.
 */
module NameCache {
  import opened Wrappers
  import opened DnsMsg

  const Second: nat := 1_000_000_000
  /** `cache.New(1*time.Hour, ...)`: lifetime of an entry after its last write. */
  const DefaultExpiration: nat := 3600 * Second

  datatype Entry = Entry(msg: Msg, expires: int)

  /** Queried name (as received, trailing dot included) to stored message. */
  type Cache = map<string, Entry>

  const EmptyCache: Cache := map[]

  /** An entry is live at `now` until its deadline has passed. */
  predicate Live(e: Entry, now: int) {
    now <= e.expires
  }

  /** `NameCache.Get(name)`: the stored message when its entry is live. */
  function Get(c: Cache, name: string, now: int): (r: Option<Msg>)
    ensures r.Some? <==> name in c && Live(c[name], now)
    ensures r.Some? ==> r.value == c[name].msg
  {
    if name in c && Live(c[name], now) then Some(c[name].msg) else None
  }

  /** `NameCache.SetDefault(name, m)`: store `m` under `name` for one default lifetime. */
  function SetDefault(c: Cache, name: string, m: Msg, now: int): (c': Cache)
    ensures c'.Keys == c.Keys + {name}
    ensures forall k :: k in c && k != name ==> c'[k] == c[k]
    ensures Get(c', name, now) == Some(m)
  {
    c[name := Entry(m, now + DefaultExpiration)]
  }

  /** The janitor's sweep (every ten minutes): drop every entry whose deadline has passed. */
  function DeleteExpired(c: Cache, now: int): (c': Cache)
    ensures c'.Keys <= c.Keys
    ensures forall k :: k in c' ==> c'[k] == c[k] && Live(c[k], now)
    ensures forall k :: k in c && Live(c[k], now) ==> k in c'
  {
    map k | k in c && Live(c[k], now) :: c[k]
  }

  /**
    A written entry is found for exactly the default lifetime after the
    write (and at any earlier reading), and not after it.
   */
  lemma GetAfterSetDefault(c: Cache, name: string, m: Msg, now: int, t: int)
    ensures t <= now + DefaultExpiration ==> Get(SetDefault(c, name, m, now), name, t) == Some(m)
    ensures t > now + DefaultExpiration ==> Get(SetDefault(c, name, m, now), name, t) == None
  {
  }

  /** Writing one name leaves every lookup of another name as it was. */
  lemma SetDefaultFrames(c: Cache, name: string, m: Msg, now: int, other: string, t: int)
    requires other != name
    ensures Get(SetDefault(c, name, m, now), other, t) == Get(c, other, t)
  {
  }

  /**
    The janitor is invisible: after a sweep at `now`, a lookup at any
    later time answers as it would have without the sweep.
   */
  lemma DeleteExpiredInvisible(c: Cache, now: int, name: string, t: int)
    requires now <= t
    ensures Get(DeleteExpired(c, now), name, t) == Get(c, name, t)
  {
  }
}
