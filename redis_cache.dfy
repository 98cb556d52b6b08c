/** The Redis client wrapper (server/src/cache/redis.ts): the reconnect
    back-off, connection management that is safe to repeat, and cache helpers
    that never throw. The store is a map from key to value and optional
    deadline; values are JSON texts carried unchanged. */
module RedisCache {
  import opened Wrappers

  // ---------------------------------------------------------------- back-off

  /** `reconnectStrategy(retries)`: `Math.min(retries * 100, 3000)` ms. */
  function ReconnectDelay(retries: nat): (d: nat)
    ensures d <= 3000
    ensures retries <= 30 ==> d == retries * 100
    ensures retries >= 30 ==> d == 3000
  {
    if retries * 100 < 3000 then retries * 100 else 3000
  }

  /** The delay never shrinks as attempts accumulate. */
  lemma ReconnectDelayMonotone(a: nat, b: nat)
    requires a <= b
    ensures ReconnectDelay(a) <= ReconnectDelay(b)
  {
  }

  // ---------------------------------------------------------------- store

  datatype Item = Item(value: string, expiresAt: Option<nat>)

  type Items = map<string, Item>

  predicate LiveIn(items: Items, key: string, now: nat)
  {
    key in items && (items[key].expiresAt.None? || now < items[key].expiresAt.value)
  }

  /** `cache.get(key)` when the `GET` command succeeds: null for a missing,
      expired or empty value, and for text that does not parse; otherwise the
      parsed value (the text itself here). */
  function CachedValue(items: Items, key: string, now: nat, parses: string -> bool): (r: Option<string>)
    ensures r.Some? <==> LiveIn(items, key, now) && items[key].value != "" && parses(items[key].value)
    ensures r.Some? ==> r.value == items[key].value
  {
    if LiveIn(items, key, now) && items[key].value != "" && parses(items[key].value) then Some(items[key].value)
    else None
  }

  /** `ttlSeconds` as JavaScript tests it: present and not 0. */
  predicate Truthy(ttl: Option<int>)
  {
    ttl.Some? && ttl.value != 0
  }

  /** The store after `cache.set` reached Redis: with a truthy TTL, `SET ... EX`
      keeps the value until `now + ttl`, and a negative TTL is refused by
      Redis, so nothing changes; otherwise plain `SET` stores the value with
      no deadline, discarding any earlier one. */
  function AfterSet(items: Items, key: string, value: string, ttl: Option<int>, now: nat): (r: Items)
    ensures Truthy(ttl) && ttl.value > 0 ==> r == items[key := Item(value, Some(now + ttl.value))]
    ensures Truthy(ttl) && ttl.value < 0 ==> r == items
    ensures !Truthy(ttl) ==> r == items[key := Item(value, None)]
  {
    if Truthy(ttl) then
      if ttl.value > 0 then items[key := Item(value, Some(now + ttl.value))] else items
    else items[key := Item(value, None)]
  }

  /** A value stored without a TTL, or with a positive one, reads back until
      its deadline, provided it is non-empty and parses. */
  lemma SetThenGet(items: Items, key: string, value: string, ttl: Option<int>, now: nat, later: nat,
                   parses: string -> bool)
    requires value != "" && parses(value) && now <= later
    requires !Truthy(ttl) || (ttl.value > 0 && later < now + ttl.value)
    ensures CachedValue(AfterSet(items, key, value, ttl, now), key, later, parses) == Some(value)
  {
  }

  /** A value stored with a positive TTL is gone from its deadline on. */
  lemma SetExpires(items: Items, key: string, value: string, ttl: int, now: nat, later: nat, parses: string -> bool)
    requires ttl > 0 && later >= now + ttl
    ensures CachedValue(AfterSet(items, key, value, Some(ttl), now), key, later, parses) == None
    ensures !LiveIn(AfterSet(items, key, value, Some(ttl), now), key, later)
  {
  }

  /** A TTL of 0 counts as none: the value never expires. */
  lemma ZeroTtlNeverExpires(items: Items, key: string, value: string, now: nat, later: nat)
    ensures LiveIn(AfterSet(items, key, value, Some(0), now), key, later)
    ensures AfterSet(items, key, value, Some(0), now) == AfterSet(items, key, value, None, now)
  {
  }

  /** The empty JSON text is stored but reads back as null. */
  lemma EmptyValueReadsNull(items: Items, key: string, now: nat, parses: string -> bool)
    ensures CachedValue(AfterSet(items, key, "", None, now), key, now, parses) == None
  {
  }

  datatype Command = Connect | Quit

  /** The client state connection management cares about. */
  datatype Connection = Connection(isOpen: bool, commands: seq<Command>)

  /** `connectRedis()`, when connecting succeeds. */
  function Connected(c: Connection): (r: Connection)
    ensures r.isOpen
    ensures r.commands == c.commands + (if c.isOpen then [] else [Connect])
  {
    if c.isOpen then c else Connection(true, c.commands + [Connect])
  }

  /** `disconnectRedis()`. */
  function Disconnected(c: Connection): (r: Connection)
    ensures !r.isOpen
    ensures r.commands == c.commands + (if c.isOpen then [Quit] else [])
  {
    if c.isOpen then Connection(false, c.commands + [Quit]) else c
  }

  /** Repeating either call is a no-op. */
  lemma ConnectionIdempotent(c: Connection)
    ensures Connected(Connected(c)) == Connected(c)
    ensures Disconnected(Disconnected(c)) == Disconnected(c)
  {
  }

  /** The shared client: open or closed, its store, and the clock. A command
      fails when `fails` says the server or network raised, and always when
      the client is closed. */
  class Client {
    var isOpen: bool
    var commands: seq<Command>
    var items: Items
    var now: nat
    const parses: string -> bool

    constructor (parses: string -> bool)
      ensures !isOpen && commands == [] && items == map[] && now == 0 && this.parses == parses
    {
      isOpen := false;
      commands := [];
      items := map[];
      now := 0;
      this.parses := parses;
    }

    function State(): Connection
      reads this
    {
      Connection(isOpen, commands)
    }

    method Advance(seconds: nat)
      modifies this
      ensures now == old(now) + seconds
      ensures isOpen == old(isOpen) && commands == old(commands) && items == old(items)
    {
      now := now + seconds;
    }

    /** `connectRedis()`: a failed `connect` rejects and leaves the client
        closed. */
    method ConnectRedis(fails: bool) returns (r: Result<bool, Error>)
      modifies this
      ensures items == old(items) && now == old(now)
      ensures old(isOpen) ==> r.Success? && State() == old(State())
      ensures !old(isOpen) && !fails ==> r.Success? && State() == Connected(old(State()))
      ensures !old(isOpen) && fails ==> r.Failure? && State() == old(State())
    {
      if !isOpen {
        if fails {
          return Failure(Error("connect failed", None));
        }
        isOpen := true;
        commands := commands + [Connect];
      }
      return Success(true);
    }

    /** `disconnectRedis()`. */
    method DisconnectRedis()
      modifies this
      ensures items == old(items) && now == old(now)
      ensures State() == Disconnected(old(State()))
    {
      if isOpen {
        isOpen := false;
        commands := commands + [Quit];
      }
    }

    /** `cache.get(key)`: never throws. */
    method Get(key: string, fails: bool) returns (r: Option<string>)
      ensures r == if isOpen && !fails then CachedValue(items, key, now, parses) else None
    {
      if !isOpen || fails {
        return None;
      }
      var data := if LiveIn(items, key, now) then items[key].value else "";
      if data == "" {
        return None;
      }
      if !parses(data) {
        return None;
      }
      return Some(data);
    }

    /** `cache.set(key, value, ttlSeconds)`: errors are swallowed. */
    method Set(key: string, value: string, ttl: Option<int>, fails: bool)
      modifies this
      ensures isOpen == old(isOpen) && commands == old(commands) && now == old(now)
      ensures items == if isOpen && !fails then AfterSet(old(items), key, value, ttl, now) else old(items)
    {
      if !isOpen || fails {
        return;
      }
      if Truthy(ttl) {
        if ttl.value > 0 {
          items := items[key := Item(value, Some(now + ttl.value))];
        }
      } else {
        items := items[key := Item(value, None)];
      }
    }

    /** `cache.del(key)`: errors are swallowed. */
    method Del(key: string, fails: bool)
      modifies this
      ensures isOpen == old(isOpen) && commands == old(commands) && now == old(now)
      ensures items == if isOpen && !fails then old(items) - {key} else old(items)
    {
      if isOpen && !fails {
        items := items - {key};
      }
    }

    /** `cache.exists(key)`: `EXISTS` answers 1 exactly for a live key; an
        error gives false. */
    method Exists(key: string, fails: bool) returns (b: bool)
      ensures b <==> isOpen && !fails && LiveIn(items, key, now)
    {
      if !isOpen || fails {
        return false;
      }
      var result := if LiveIn(items, key, now) then 1 else 0;
      return result == 1;
    }
  }
}
