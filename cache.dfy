/**
 * The in-memory TTL cache (internal/cache/cache.go) and the read-through
 * repository built on it. The wall clock is an explicit `now` argument (a
 * time in nanoseconds); the mutex and the periodic cleanup goroutine are not
 * modelled, only the sweep that the goroutine runs.
 */
module TtlCache {
  import opened Base
  import opened GoStrings
  import opened Entity

  /** A cached value and the instant after which it is stale. */
  datatype Entry<V> = Entry(data: V, expiresAt: int)

  /** An entry has expired once the clock is strictly after its expiry time. */
  predicate IsExpired<V>(e: Entry<V>, now: int) {
    now > e.expiresAt
  }

  /** What Get reports for a key at a given instant: the value of a present, unexpired entry. */
  function Lookup<V>(items: map<string, Entry<V>>, key: string, now: int): (r: Option<V>)
    ensures r.Some? <==> key in items && !IsExpired(items[key], now)
    ensures r.Some? ==> r.value == items[key].data
  {
    if key in items && !IsExpired(items[key], now) then Some(items[key].data) else None
  }

  /** The entries the expiry sweep keeps. */
  function Live<V>(items: map<string, Entry<V>>, now: int): (r: map<string, Entry<V>>)
    ensures forall k :: k in r <==> k in items && !IsExpired(items[k], now)
    ensures forall k :: k in r ==> r[k] == items[k]
  {
    map k | k in items && !IsExpired(items[k], now) :: items[k]
  }

  /** A value stored at `t` with lifetime `ttl` is returned exactly while the clock is at most `t + ttl`. */
  lemma SetThenGet<V>(items: map<string, Entry<V>>, key: string, v: V, t: int, ttl: int, now: int)
    ensures Lookup(items[key := Entry(v, t + ttl)], key, now) == if now <= t + ttl then Some(v) else None
  {
  }

  /** Storing under one key leaves what every other key returns unchanged. */
  lemma SetKeepsOthers<V>(items: map<string, Entry<V>>, key: string, v: V, expiresAt: int, other: string, now: int)
    requires other != key
    ensures Lookup(items[key := Entry(v, expiresAt)], other, now) == Lookup(items, other, now)
  {
  }

  /** After Delete the key is absent and every other key returns what it did before. */
  lemma DeleteThenGet<V>(items: map<string, Entry<V>>, key: string, other: string, now: int)
    ensures Lookup(items - {key}, key, now) == None
    ensures other != key ==> Lookup(items - {key}, other, now) == Lookup(items, other, now)
  {
  }

  /** The sweep is invisible to Get, at the sweep's instant and at every later one. */
  lemma {:induction false} SweepInvisible<V>(items: map<string, Entry<V>>, swept: int, key: string, now: int)
    requires swept <= now
    ensures Lookup(Live(items, swept), key, now) == Lookup(items, key, now)
  {
    if key in items && IsExpired(items[key], swept) {
      assert IsExpired(items[key], now);
    }
  }

  /** The cache: a map from key to entry and the lifetime given to every new entry. */
  class Cache<V> {
    var items: map<string, Entry<V>>
    const ttl: int

    /** An empty cache with the given lifetime. */
    constructor (ttl: int)
      ensures this.ttl == ttl && items == map[]
    {
      this.ttl := ttl;
      items := map[];
    }

    /** Stores or replaces the value under `key`, expiring `ttl` after `now`; other keys are untouched. */
    method Set(key: string, value: V, now: int)
      modifies this
      ensures items == old(items)[key := Entry(value, now + ttl)]
    {
      items := items[key := Entry(value, now + ttl)];
    }

    /** The value under `key`, unless it is missing or has expired. */
    method Get(key: string, now: int) returns (r: Option<V>)
      ensures r.Some? <==> key in items && now <= items[key].expiresAt
      ensures r.Some? ==> r.value == items[key].data
    {
      if key !in items || IsExpired(items[key], now) {
        return None;
      }
      return Some(items[key].data);
    }

    /** Removes `key` and nothing else. */
    method Delete(key: string)
      modifies this
      ensures items == old(items) - {key}
    {
      items := items - {key};
    }

    /** Removes every entry. */
    method Clear()
      modifies this
      ensures items == map[]
    {
      items := map[];
    }

    /** One pass of the periodic cleanup: deletes exactly the entries expired at `now`.
        The keys are visited in an unspecified order, as Go's map range does. */
    method Sweep(now: int)
      modifies this
      ensures items == Live(old(items), now)
    {
      ghost var orig := items;
      var keys := items.Keys;
      while keys != {}
        invariant keys <= orig.Keys
        invariant forall k :: k in items <==> k in orig && (k in keys || !IsExpired(orig[k], now))
        invariant forall k :: k in items ==> items[k] == orig[k]
        decreases |keys|
      {
        var k :| k in keys;
        if IsExpired(items[k], now) {
          items := items - {k};
        }
        keys := keys - {k};
      }
    }
  }

  /** `p` is a prefix of `k`. */
  predicate HasPrefix(k: string, p: string) {
    |p| <= |k| && k[..|p|] == p
  }

  /** The key of a player's recent-matches page. */
  function PlayerMatchesKey(playerID: string, gameID: string, limit: int): (k: string)
    ensures HasPrefix(k, "matches:") && k[8..] == playerID + ":" + gameID + ":" + Itoa(limit)
  {
    var rest := playerID + ":" + gameID + ":" + Itoa(limit);
    "matches:" + rest
  }

  /** The key of a profile looked up by nickname. */
  function PlayerProfileKey(nickname: string): (k: string)
    ensures HasPrefix(k, "profile:") && k[8..] == nickname
  {
    "profile:" + nickname
  }

  /** The key of a player's statistics for one game. */
  function PlayerStatsKey(playerID: string, gameID: string): (k: string)
    ensures HasPrefix(k, "stats:") && k[6..] == playerID + ":" + gameID
  {
    "stats:" + playerID + ":" + gameID
  }

  /** The key of one match's statistics. */
  function MatchStatsKey(matchID: string): (k: string)
    ensures HasPrefix(k, "match_stats:") && k[12..] == matchID
  {
    "match_stats:" + matchID
  }

  /** Keys of the four kinds never coincide, whatever the identifiers. */
  lemma KeyKindsDisjoint(p: string, g: string, l: int, n: string, p2: string, g2: string, m: string)
    ensures PlayerMatchesKey(p, g, l) != PlayerProfileKey(n)
    ensures PlayerMatchesKey(p, g, l) != PlayerStatsKey(p2, g2)
    ensures PlayerMatchesKey(p, g, l) != MatchStatsKey(m)
    ensures PlayerProfileKey(n) != PlayerStatsKey(p2, g2)
    ensures PlayerProfileKey(n) != MatchStatsKey(m)
    ensures PlayerStatsKey(p2, g2) != MatchStatsKey(m)
  {
    assert PlayerMatchesKey(p, g, l)[0] == 'm' && PlayerMatchesKey(p, g, l)[5] == 'e';
    assert PlayerProfileKey(n)[0] == 'p';
    assert PlayerStatsKey(p2, g2)[0] == 's';
    assert MatchStatsKey(m)[0] == 'm' && MatchStatsKey(m)[5] == '_';
  }

  /** Profile keys determine the nickname. */
  lemma ProfileKeyInjective(n1: string, n2: string)
    ensures PlayerProfileKey(n1) == PlayerProfileKey(n2) ==> n1 == n2
  {
  }

  /** Statistics keys determine the player and the game, provided player IDs contain no colon. */
  lemma {:induction false} StatsKeyInjective(p1: string, g1: string, p2: string, g2: string)
    requires ':' !in p1 && ':' !in p2
    requires PlayerStatsKey(p1, g1) == PlayerStatsKey(p2, g2)
    ensures p1 == p2 && g1 == g2
  {
    var s1, s2 := p1 + ":" + g1, p2 + ":" + g2;
    assert s1 == PlayerStatsKey(p1, g1)[6..] == PlayerStatsKey(p2, g2)[6..] == s2;
    ColonIndexAfter(p1, g1);
    ColonIndexAfter(p2, g2);
    assert p1 == s1[..|p1|] == s2[..|p2|] == p2;
    assert g1 == s1[|p1| + 1..] == s2[|p2| + 1..] == g2;
  }

  /** The index of the first colon of `s`, or its length when there is none. */
  function ColonIndex(s: string): (i: nat)
    ensures i <= |s|
    ensures forall j :: 0 <= j < i ==> s[j] != ':'
    ensures i < |s| ==> s[i] == ':'
  {
    if s == [] || s[0] == ':' then 0 else 1 + ColonIndex(s[1..])
  }

  lemma {:induction false} ColonIndexAfter(p: string, g: string)
    requires ':' !in p
    ensures ColonIndex(p + ":" + g) == |p|
  {
    if p != [] {
      assert (p + ":" + g)[1..] == p[1..] + ":" + g;
      ColonIndexAfter(p[1..], g);
    }
  }

  /** The key builders give the documented shapes. */
  lemma KeyExamples()
    ensures PlayerProfileKey("testplayer") == "profile:testplayer"
    ensures PlayerStatsKey("player123", "cs2") == "stats:player123:cs2"
    ensures MatchStatsKey("match123") == "match_stats:match123"
  {
  }

  /** The match-list key carries the limit in decimal. */
  lemma MatchesKeyExample()
    ensures PlayerMatchesKey("player123", "cs2", 50) == "matches:player123:cs2:50"
  {
    assert Itoa(50) == "50";
  }

  /** The values the repository cache holds, one variant per cached call; Go stores them untyped. */
  datatype Cached =
    | ProfileValue(profile: PlayerProfile)
    | StatsValue(stats: PlayerStats)
    | MatchesValue(matches: seq<MatchSummary>)
    | MatchStatsValue(matchStats: MatchStats)

  /** The prefix of the key a value of each variant is stored under. */
  function Tag(v: Cached): string
  {
    match v
    case ProfileValue(_) => "profile:"
    case StatsValue(_) => "stats:"
    case MatchesValue(_) => "matches:"
    case MatchStatsValue(_) => "match_stats:"
  }

  /** A key's prefix decides the variant of any value whose tag it carries. */
  lemma {:induction false} TagDecides(k: string, v: Cached)
    requires HasPrefix(k, Tag(v))
    ensures HasPrefix(k, "profile:") ==> v.ProfileValue?
    ensures HasPrefix(k, "stats:") ==> v.StatsValue?
    ensures HasPrefix(k, "matches:") ==> v.MatchesValue?
    ensures HasPrefix(k, "match_stats:") ==> v.MatchStatsValue?
  {
    assert k[0] == Tag(v)[0];
    if v.MatchesValue? || v.MatchStatsValue? {
      assert k[5] == Tag(v)[5];
    }
  }

  /** The repository with a cache in front of it. Each call of the wrapped repository
      is a function argument; the ghost result `fetched` says whether it was called. */
  class CachedRepository {
    const cache: Cache<Cached>

    /** Every entry sits under a key carrying its own variant's prefix, so the
        type assertion after a cache hit never fails. */
    ghost predicate Valid()
      reads this, cache
    {
      forall k :: k in cache.items ==> HasPrefix(k, Tag(cache.items[k].data))
    }

    constructor (cacheTTL: int)
      ensures Valid() && fresh(cache) && cache.ttl == cacheTTL && cache.items == map[]
    {
      cache := new Cache(cacheTTL);
    }

    /** Read-through profile lookup. A live entry is served without calling the repository;
        otherwise the repository's answer is returned and stored only when it is not an error. */
    method GetPlayerByNickname(nickname: string, fetch: string -> Result<PlayerProfile>, now: int)
      returns (r: Result<PlayerProfile>, ghost fetched: bool)
      requires Valid()
      modifies cache
      ensures Valid()
      ensures Lookup(old(cache.items), PlayerProfileKey(nickname), now).Some? ==> !fetched
      ensures var hit := Lookup(old(cache.items), PlayerProfileKey(nickname), now);
        if hit.Some? && hit.value.ProfileValue? then r == Ok(hit.value.profile) && !fetched && cache.items == old(cache.items)
        else (fetched && r == fetch(nickname) &&
          cache.items == if r.Ok? then old(cache.items)[PlayerProfileKey(nickname) := Entry(ProfileValue(r.value), now + cache.ttl)]
                         else old(cache.items))
    {
      var key := PlayerProfileKey(nickname);
      var cached := cache.Get(key, now);
      if cached.Some? {
        TagDecides(key, cached.value);
        if cached.value.ProfileValue? {
          return Ok(cached.value.profile), false;
        }
      }
      fetched := true;
      r := fetch(nickname);
      if r.Err? {
        return;
      }
      cache.Set(key, ProfileValue(r.value), now);
    }

    /** Read-through statistics lookup, with the same caching rule. */
    method GetPlayerStats(playerID: string, gameID: string, fetch: (string, string) -> Result<PlayerStats>, now: int)
      returns (r: Result<PlayerStats>, ghost fetched: bool)
      requires Valid()
      modifies cache
      ensures Valid()
      ensures Lookup(old(cache.items), PlayerStatsKey(playerID, gameID), now).Some? ==> !fetched
      ensures var hit := Lookup(old(cache.items), PlayerStatsKey(playerID, gameID), now);
        if hit.Some? && hit.value.StatsValue? then r == Ok(hit.value.stats) && !fetched && cache.items == old(cache.items)
        else (fetched && r == fetch(playerID, gameID) &&
          cache.items == if r.Ok? then old(cache.items)[PlayerStatsKey(playerID, gameID) := Entry(StatsValue(r.value), now + cache.ttl)]
                         else old(cache.items))
    {
      var key := PlayerStatsKey(playerID, gameID);
      var cached := cache.Get(key, now);
      if cached.Some? {
        TagDecides(key, cached.value);
        if cached.value.StatsValue? {
          return Ok(cached.value.stats), false;
        }
      }
      fetched := true;
      r := fetch(playerID, gameID);
      if r.Err? {
        return;
      }
      cache.Set(key, StatsValue(r.value), now);
    }

    /** Read-through recent-matches lookup; the limit is part of the key. */
    method GetPlayerRecentMatches(playerID: string, gameID: string, limit: int,
                                  fetch: (string, string, int) -> Result<seq<MatchSummary>>, now: int)
      returns (r: Result<seq<MatchSummary>>, ghost fetched: bool)
      requires Valid()
      modifies cache
      ensures Valid()
      ensures Lookup(old(cache.items), PlayerMatchesKey(playerID, gameID, limit), now).Some? ==> !fetched
      ensures var hit := Lookup(old(cache.items), PlayerMatchesKey(playerID, gameID, limit), now);
        if hit.Some? && hit.value.MatchesValue? then r == Ok(hit.value.matches) && !fetched && cache.items == old(cache.items)
        else (fetched && r == fetch(playerID, gameID, limit) &&
          cache.items == if r.Ok? then old(cache.items)[PlayerMatchesKey(playerID, gameID, limit) := Entry(MatchesValue(r.value), now + cache.ttl)]
                         else old(cache.items))
    {
      var key := PlayerMatchesKey(playerID, gameID, limit);
      var cached := cache.Get(key, now);
      if cached.Some? {
        TagDecides(key, cached.value);
        if cached.value.MatchesValue? {
          return Ok(cached.value.matches), false;
        }
      }
      fetched := true;
      r := fetch(playerID, gameID, limit);
      if r.Err? {
        return;
      }
      cache.Set(key, MatchesValue(r.value), now);
    }

    /** Read-through match-statistics lookup, with the same caching rule. */
    method GetMatchStats(matchID: string, fetch: string -> Result<MatchStats>, now: int)
      returns (r: Result<MatchStats>, ghost fetched: bool)
      requires Valid()
      modifies cache
      ensures Valid()
      ensures Lookup(old(cache.items), MatchStatsKey(matchID), now).Some? ==> !fetched
      ensures var hit := Lookup(old(cache.items), MatchStatsKey(matchID), now);
        if hit.Some? && hit.value.MatchStatsValue? then r == Ok(hit.value.matchStats) && !fetched && cache.items == old(cache.items)
        else (fetched && r == fetch(matchID) &&
          cache.items == if r.Ok? then old(cache.items)[MatchStatsKey(matchID) := Entry(MatchStatsValue(r.value), now + cache.ttl)]
                         else old(cache.items))
    {
      var key := MatchStatsKey(matchID);
      var cached := cache.Get(key, now);
      if cached.Some? {
        TagDecides(key, cached.value);
        if cached.value.MatchStatsValue? {
          return Ok(cached.value.matchStats), false;
        }
      }
      fetched := true;
      r := fetch(matchID);
      if r.Err? {
        return;
      }
      cache.Set(key, MatchStatsValue(r.value), now);
    }

    /** Drops every cached answer. */
    method ClearCache()
      requires Valid()
      modifies cache
      ensures Valid() && cache.items == map[]
    {
      cache.Clear();
    }

    /** The number of stored entries (expired ones included, until swept) and the lifetime. */
    method GetCacheStats() returns (totalItems: nat, ttl: int)
      ensures totalItems == |cache.items.Keys| && ttl == cache.ttl
    {
      totalItems := |cache.items.Keys|;
      ttl := cache.ttl;
    }
  }
}
