/**
 * The in-memory path of `CacheService` (services/cache_service.py): a value
 * map and an expiry map keyed alike, where expiry 0 means "never expires".
 * The current time is a parameter; the Redis path is not part of this model.
 */
module CacheService {
  import opened Wrappers
  import opened Text

  // ---------------------------------------------------------------------------
  // Default time-to-live values, in seconds
  // ---------------------------------------------------------------------------

  const TtlShort: int := 60
  const TtlMedium: int := 300
  const TtlLong: int := 3600
  const TtlPermanent: int := 86400

  // ---------------------------------------------------------------------------
  // The memory cache as values
  // ---------------------------------------------------------------------------

  /** `memory_timestamps.get(key, 0)` */
  function ExpiryOf(timestamps: map<string, real>, key: string): real {
    if key in timestamps then timestamps[key] else 0.0
  }

  /** An expiry of 0 never passes; any other passes once `now` reaches it. */
  predicate Live(timestamps: map<string, real>, key: string, now: real) {
    ExpiryOf(timestamps, key) == 0.0 || now < ExpiryOf(timestamps, key)
  }

  /** What `get(key)` returns at time `now`. */
  function Lookup<V>(cache: map<string, V>, timestamps: map<string, real>, key: string, now: real): (r: Option<V>)
    ensures r.Some? <==> key in cache && Live(timestamps, key, now)
    ensures r.Some? ==> r.value == cache[key]
  {
    if key in cache && Live(timestamps, key, now) then Some(cache[key]) else None
  }

  /** Python's truthiness of an optional ttl: present and non-zero. */
  predicate IsTruthyTtl(ttl: Option<int>) { ttl.Some? && ttl.value != 0 }

  /** The expiry `set` stores: `now + ttl` for a truthy ttl, otherwise 0. */
  function ExpiryFor(ttl: Option<int>, now: real): (e: real)
    ensures !IsTruthyTtl(ttl) ==> e == 0.0
    ensures IsTruthyTtl(ttl) ==> e == now + ttl.value as real
  {
    if IsTruthyTtl(ttl) then now + ttl.value as real else 0.0
  }

  /** The keys of `keys` that start with `prefix`. */
  function Matching(keys: set<string>, prefix: string): (r: set<string>)
    ensures forall k :: k in r <==> k in keys && StartsWith(k, prefix)
  {
    set k | k in keys && StartsWith(k, prefix)
  }

  /** The prefix `delete_pattern` matches against: the pattern with every '*' removed. */
  function PatternPrefix(pattern: string): (p: string)
    ensures '*' !in p
  {
    RemoveChar(pattern, '*')
  }

  /**
   * A value set with a positive ttl at time `t0` is returned at every time
   * before `t0 + ttl`, and at no time from then on.
   */
  lemma SetThenGetWithTtl<V>(cache: map<string, V>, timestamps: map<string, real>,
                             key: string, value: V, ttl: int, t0: real, now: real)
    requires ttl > 0
    ensures var c := cache[key := value];
            var t := timestamps[key := ExpiryFor(Some(ttl), t0)];
            (now < t0 + ttl as real ==> Lookup(c, t, key, now) == Some(value))
            && (t0 + ttl as real != 0.0 && now >= t0 + ttl as real ==> Lookup(c, t, key, now) == None)
  {
  }

  /** A value set with a falsy ttl is stored with expiry 0 and never expires. */
  lemma SetWithoutTtlNeverExpires<V>(cache: map<string, V>, timestamps: map<string, real>,
                                     key: string, value: V, ttl: Option<int>, t0: real, now: real)
    requires !IsTruthyTtl(ttl)
    ensures ExpiryFor(ttl, t0) == 0.0
    ensures Lookup(cache[key := value], timestamps[key := ExpiryFor(ttl, t0)], key, now) == Some(value)
  {
  }

  /** Setting one key does not change what any other key returns. */
  lemma SetLeavesOtherKeys<V>(cache: map<string, V>, timestamps: map<string, real>,
                              key: string, value: V, ttl: Option<int>, t0: real, other: string, now: real)
    requires other != key
    ensures Lookup(cache[key := value], timestamps[key := ExpiryFor(ttl, t0)], other, now)
            == Lookup(cache, timestamps, other, now)
  {
  }

  /**
   * Deleting the keys of a pattern removes exactly the cached keys with its
   * prefix from both maps, keeps every other entry, and keeps the two maps'
   * key sets equal.
   */
  lemma DeletePatternExact<V>(cache: map<string, V>, timestamps: map<string, real>, pattern: string, k: string)
    ensures var doomed := Matching(cache.Keys, PatternPrefix(pattern));
            (k in cache - doomed <==> k in cache && !StartsWith(k, PatternPrefix(pattern)))
            && (k in cache - doomed ==> (cache - doomed)[k] == cache[k])
    ensures cache.Keys == timestamps.Keys ==>
            var doomed := Matching(cache.Keys, PatternPrefix(pattern));
            (cache - doomed).Keys == (timestamps - doomed).Keys
  {
  }

  // ---------------------------------------------------------------------------
  // _generate_key
  // ---------------------------------------------------------------------------

  /** The present arguments, in order. */
  function Present(args: seq<Option<string>>): (r: seq<string>)
    ensures |r| <= |args|
    ensures forall k :: 0 <= k < |r| ==> Some(r[k]) in args
    ensures forall k :: 0 <= k < |args| && args[k].Some? ==> args[k].value in r
  {
    if args == [] then []
    else (if args[0].Some? then [args[0].value] else []) + Present(args[1..])
  }

  /** The prefix and the present arguments (already in string form) joined with ':'. */
  function GenerateKey(prefix: string, args: seq<Option<string>>): string {
    JoinWith(":", [prefix] + Present(args))
  }

  /** When no part holds ':', splitting the key on ':' gives back the prefix and the present arguments. */
  lemma GenerateKeySplits(prefix: string, args: seq<Option<string>>)
    requires ':' !in prefix
    requires forall k :: 0 <= k < |args| && args[k].Some? ==> ':' !in args[k].value
    ensures SplitOn(GenerateKey(prefix, args), ':') == [prefix] + Present(args)
  {
    var parts := [prefix] + Present(args);
    forall k | 0 <= k < |parts| ensures ':' !in parts[k] {
      if k > 0 {
        assert Some(parts[k]) in args;
      }
    }
    SplitJoin(parts, ':');
  }

  // ---------------------------------------------------------------------------
  // The keys of the convenience getters and setters
  // ---------------------------------------------------------------------------

  /** What a convenience getter or setter caches. */
  datatype Entry = Jobs | Job(jobId: string) | Candidates(jobId: string) | DashboardStats | Analytics
                 | AIScore(candidateId: string)

  function KeyOf(e: Entry): string {
    match e
    case Jobs => "jobs:all"
    case Job(id) => "job:" + id
    case Candidates(id) => "candidates:job:" + id
    case DashboardStats => "dashboard:stats"
    case Analytics => "analytics:data"
    case AIScore(id) => "ai:score:" + id
  }

  function TtlOf(e: Entry): (ttl: int)
    ensures ttl > 0
  {
    match e
    case Jobs => TtlMedium
    case Job(_) => TtlMedium
    case Candidates(_) => TtlShort
    case DashboardStats => TtlShort
    case Analytics => TtlMedium
    case AIScore(_) => TtlPermanent
  }

  lemma PrefixedKeysDiffer(p: string, a: string, b: string)
    requires p + a == p + b
    ensures a == b
  {
    assert a == (p + a)[|p|..];
    assert b == (p + b)[|p|..];
  }

  /** The first four characters of an entry's key, which tell the kinds of entry apart. */
  function KindTag(e: Entry): string {
    match e
    case Jobs => "jobs"
    case Job(_) => "job:"
    case Candidates(_) => "cand"
    case DashboardStats => "dash"
    case Analytics => "anal"
    case AIScore(_) => "ai:s"
  }

  lemma KeyStartsWithTag(e: Entry)
    ensures |KeyOf(e)| >= 4 && KeyOf(e)[..4] == KindTag(e)
  {
  }

  /** Equal keys mean equal entries, so no convenience setter overwrites another's data. */
  lemma KeyOfInjective(e1: Entry, e2: Entry)
    requires KeyOf(e1) == KeyOf(e2)
    ensures e1 == e2
  {
    KeyStartsWithTag(e1);
    KeyStartsWithTag(e2);
    assert KindTag(e1) == KindTag(e2);
    match e1
    case Job(a) => PrefixedKeysDiffer("job:", a, e2.jobId);
    case Candidates(a) => PrefixedKeysDiffer("candidates:job:", a, e2.jobId);
    case AIScore(a) => PrefixedKeysDiffer("ai:score:", a, e2.candidateId);
    case _ =>
  }

  /** Whether a job id is given: present and non-empty. */
  predicate IsTruthyId(jobId: Option<string>) { jobId.Some? && jobId.value != "" }

  /** Removing two key sets one after the other is removing their union. */
  lemma MinusUnion<K, V, T>(m: map<K, V>, n: map<K, T>, a: set<K>, b: set<K>)
    ensures m - a - b == m - (a + b) && n - a - b == n - (a + b)
  {
  }

  /** The keys `invalidate_candidates` deletes. */
  function CandidateKeys(jobId: Option<string>): (keys: set<string>)
    ensures KeyOf(DashboardStats) in keys && KeyOf(Analytics) in keys
    ensures IsTruthyId(jobId) ==> KeyOf(Candidates(jobId.value)) in keys
    ensures !IsTruthyId(jobId) ==> |keys| == 2
  {
    if IsTruthyId(jobId) then
      {"candidates:job:" + jobId.value, "candidates:count:" + jobId.value, "dashboard:stats", "analytics:data"}
    else
      assert "dashboard:stats"[0] != "analytics:data"[0];
      {"dashboard:stats", "analytics:data"}
  }

  // ---------------------------------------------------------------------------
  // The cache object
  // ---------------------------------------------------------------------------

  class MemoryCache<V> {
    var cache: map<string, V>
    var timestamps: map<string, real>

    /** Every cached key has an expiry and every expiry belongs to a cached key. */
    ghost predicate Valid()
      reads this
    {
      cache.Keys == timestamps.Keys
    }

    constructor ()
      ensures Valid() && cache == map[] && timestamps == map[]
    {
      cache := map[];
      timestamps := map[];
    }

    /** `get`: the live value, if any; an expired entry is also removed. */
    method Get(key: string, now: real) returns (r: Option<V>)
      modifies this
      ensures r == Lookup(old(cache), old(timestamps), key, now)
      ensures key in old(cache) && !Live(old(timestamps), key, now) ==>
                cache == old(cache) - {key} && timestamps == old(timestamps) - {key}
      ensures !(key in old(cache) && !Live(old(timestamps), key, now)) ==>
                cache == old(cache) && timestamps == old(timestamps)
      ensures old(Valid()) ==> Valid()
    {
      if key in cache {
        var expiry := if key in timestamps then timestamps[key] else 0.0;
        if expiry == 0.0 || now < expiry {
          return Some(cache[key]);
        } else {
          cache := cache - {key};
          timestamps := timestamps - {key};
        }
      }
      return None;
    }

    /** `set`: stores the value and its expiry; always reports success. */
    method Set(key: string, value: V, ttl: Option<int>, now: real) returns (ok: bool)
      modifies this
      ensures ok
      ensures cache == old(cache)[key := value]
      ensures timestamps == old(timestamps)[key := ExpiryFor(ttl, now)]
      ensures old(Valid()) ==> Valid()
    {
      cache := cache[key := value];
      if ttl.Some? && ttl.value != 0 {
        timestamps := timestamps[key := now + ttl.value as real];
      } else {
        timestamps := timestamps[key := 0.0];
      }
      return true;
    }

    /** `delete`: removes the key from both maps if present; always reports success. */
    method Delete(key: string) returns (ok: bool)
      modifies this
      ensures ok
      ensures cache == old(cache) - {key} && timestamps == old(timestamps) - {key}
      ensures old(Valid()) ==> Valid()
    {
      cache := cache - {key};
      timestamps := timestamps - {key};
      return true;
    }

    /** `delete_pattern`: removes every cached key that starts with the pattern's prefix. */
    method DeletePattern(pattern: string) returns (ok: bool)
      modifies this
      ensures ok
      ensures cache == old(cache) - Matching(old(cache).Keys, PatternPrefix(pattern))
      ensures timestamps == old(timestamps) - Matching(old(cache).Keys, PatternPrefix(pattern))
      ensures old(Valid()) ==> Valid()
    {
      var prefix := RemoveChar(pattern, '*');
      var doomed := set k | k in cache.Keys && StartsWith(k, prefix);
      var rest := doomed;
      while rest != {}
        invariant rest <= doomed
        invariant cache == old(cache) - (doomed - rest)
        invariant timestamps == old(timestamps) - (doomed - rest)
        decreases |rest|
      {
        var k :| k in rest;
        cache := cache - {k};
        timestamps := timestamps - {k};
        rest := rest - {k};
      }
      return true;
    }

    /** `invalidate_jobs` */
    method InvalidateJobs()
      modifies this
      ensures cache == old(cache) - {"jobs:all", "dashboard:stats"}
      ensures timestamps == old(timestamps) - {"jobs:all", "dashboard:stats"}
      ensures old(Valid()) ==> Valid()
    {
      var _ := Delete("jobs:all");
      var _ := Delete("dashboard:stats");
    }

    /** `invalidate_candidates` */
    method InvalidateCandidates(jobId: Option<string>)
      modifies this
      ensures cache == old(cache) - CandidateKeys(jobId)
      ensures timestamps == old(timestamps) - CandidateKeys(jobId)
      ensures old(Valid()) ==> Valid()
    {
      ghost var c0, t0 := cache, timestamps;
      ghost var gone: set<string> := {};
      assert cache == c0 - gone && timestamps == t0 - gone;
      if jobId.Some? && jobId.value != "" {
        var _ := Delete("candidates:job:" + jobId.value);
        MinusUnion(c0, t0, gone, {"candidates:job:" + jobId.value});
        gone := gone + {"candidates:job:" + jobId.value};
        var _ := Delete("candidates:count:" + jobId.value);
        MinusUnion(c0, t0, gone, {"candidates:count:" + jobId.value});
        gone := gone + {"candidates:count:" + jobId.value};
      }
      var _ := Delete("dashboard:stats");
      MinusUnion(c0, t0, gone, {"dashboard:stats"});
      gone := gone + {"dashboard:stats"};
      var _ := Delete("analytics:data");
      MinusUnion(c0, t0, gone, {"analytics:data"});
      gone := gone + {"analytics:data"};
      assert gone == CandidateKeys(jobId);
    }

    /** The convenience getters: `get` on the entry's key. */
    method GetEntry(e: Entry, now: real) returns (r: Option<V>)
      modifies this
      ensures r == Lookup(old(cache), old(timestamps), KeyOf(e), now)
      ensures KeyOf(e) in old(cache) && !Live(old(timestamps), KeyOf(e), now) ==>
                cache == old(cache) - {KeyOf(e)} && timestamps == old(timestamps) - {KeyOf(e)}
      ensures !(KeyOf(e) in old(cache) && !Live(old(timestamps), KeyOf(e), now)) ==>
                cache == old(cache) && timestamps == old(timestamps)
      ensures old(Valid()) ==> Valid()
    {
      r := Get(KeyOf(e), now);
    }

    /** The convenience setters: `set` on the entry's key with the entry's ttl. */
    method SetEntry(e: Entry, value: V, now: real) returns (ok: bool)
      modifies this
      ensures ok
      ensures cache == old(cache)[KeyOf(e) := value]
      ensures timestamps == old(timestamps)[KeyOf(e) := now + TtlOf(e) as real]
      ensures old(Valid()) ==> Valid()
    {
      ok := Set(KeyOf(e), value, Some(TtlOf(e)), now);
    }
  }
}
