/**
 * The GitHub star-count cache behind the ranking. When the list of
 * repositories is (re)loaded, the stored cache is split into counts fresh
 * enough to show at once and repositories to look up; every lookup that
 * settles later is merged into the displayed map and written back to the
 * store. The browser store is the `Stored` value, the clock is the `now` or
 * `at` argument, and every settled lookup is a `Completion` event, applied
 * in whatever order the network delivers them.
 */
module GitHubStars {
  import opened Wrappers
  import opened Benefits

  /** How long a cached count is served without a new lookup: one hour, in milliseconds. */
  const CacheTtl: int := 1000 * 60 * 60

  /** A cached count and the time (in milliseconds) it was observed. */
  datatype CacheEntry = CacheEntry(stars: int, ts: int)

  /** The parsed cache: repository name to its last observed count. */
  type StarsCache = map<string, CacheEntry>

  /**
   * What the browser store holds under the cache key: nothing, the empty
   * string, text that is not valid JSON, or a parsed cache object.
   */
  datatype Stored = Absent | Blank | Malformed | Parsed(cache: StarsCache)

  /**
   * Reads the stored cache. A missing or empty value is replaced by the text
   * `{}`; text that fails to parse is caught and read as the empty cache.
   */
  function ReadCache(stored: Stored): (cache: StarsCache)
    ensures stored.Parsed? ==> cache == stored.cache
    ensures !stored.Parsed? ==> cache == map[]
  {
    var text := if stored.Absent? || stored.Blank? then Parsed(map[]) else stored;
    match text
    case Parsed(c) => c
    case _ => map[]
  }

  /** A cached entry for `repo` exists and is younger than the time-to-live. */
  predicate IsFresh(cache: StarsCache, repo: string, now: int) {
    repo in cache && now - cache[repo].ts < CacheTtl
  }

  /** The repository names that occur, non-blank, in `repos`. */
  function NamedRepos(repos: seq<Option<string>>): set<string> {
    set i | 0 <= i < |repos| && IsNamed(repos[i]) :: repos[i].value
  }

  /** The map shown at once: every named repository with a fresh entry, at its cached count. */
  function FreshStars(repos: seq<Option<string>>, cache: StarsCache, now: int): map<string, int> {
    map r | r in NamedRepos(repos) && IsFresh(cache, r, now) :: cache[r].stars
  }

  /** What one entry of the list adds to the lookups: its name when it is named and not fresh. */
  function ToFetch(repo: Option<string>, cache: StarsCache, now: int): seq<string> {
    if IsNamed(repo) && !IsFresh(cache, repo.value, now) then [repo.value] else []
  }

  /** The lookups to start, in list order, one per occurrence. */
  function StaleRepos(repos: seq<Option<string>>, cache: StarsCache, now: int): seq<string> {
    if repos == [] then []
    else StaleRepos(repos[..|repos| - 1], cache, now) + ToFetch(repos[|repos| - 1], cache, now)
  }

  /**
   * The loop of the effect: walks the list once, recording fresh counts in
   * `initial` and pushing every other named repository onto `toFetch`.
   */
  method Partition(repos: seq<Option<string>>, cache: StarsCache, now: int)
    returns (initial: map<string, int>, toFetch: seq<string>)
    ensures initial == FreshStars(repos, cache, now)
    ensures toFetch == StaleRepos(repos, cache, now)
  {
    initial, toFetch := map[], [];
    var i := 0;
    while i < |repos|
      invariant 0 <= i <= |repos|
      invariant initial == FreshStars(repos[..i], cache, now)
      invariant toFetch == StaleRepos(repos[..i], cache, now)
    {
      var repo := repos[i];
      assert repos[..i + 1] == repos[..i] + [repo];
      assert repos[..i + 1][..i] == repos[..i];
      assert NamedRepos(repos[..i + 1]) == NamedRepos(repos[..i]) + (if IsNamed(repo) then {repo.value} else {});
      if IsNamed(repo) {
        var name := repo.value;
        if name in cache && now - cache[name].ts < CacheTtl {
          initial := initial[name := cache[name].stars];
        } else {
          toFetch := toFetch + [name];
        }
      }
      i := i + 1;
    }
    assert repos[..i] == repos;
  }

  /** Splitting the list splits the lookups: the lookup list keeps the list's order. */
  lemma {:induction false} StaleReposConcat(xs: seq<Option<string>>, ys: seq<Option<string>>, cache: StarsCache, now: int)
    ensures StaleRepos(xs + ys, cache, now) == StaleRepos(xs, cache, now) + StaleRepos(ys, cache, now)
    decreases |ys|
  {
    if ys == [] {
      assert xs + ys == xs;
    } else {
      var last := ys[|ys| - 1];
      assert (xs + ys)[..|xs + ys| - 1] == xs + ys[..|ys| - 1];
      StaleReposConcat(xs, ys[..|ys| - 1], cache, now);
    }
  }

  /**
   * The lookup list is not deduplicated: a named repository without a fresh
   * entry is looked up once per occurrence, any other name never.
   */
  lemma {:induction false} StaleReposCount(repos: seq<Option<string>>, cache: StarsCache, now: int, r: string)
    ensures multiset(StaleRepos(repos, cache, now))[r]
         == if r != "" && !IsFresh(cache, r, now) then multiset(repos)[Some(r)] else 0
  {
    if repos != [] {
      var init, last := repos[..|repos| - 1], repos[|repos| - 1];
      assert repos == init + [last];
      StaleReposCount(init, cache, now, r);
    }
  }

  /**
   * Every non-blank occurrence goes to exactly one place: the initial map,
   * at its cached count, when its entry is fresh, the lookup list otherwise.
   * Blank and missing entries go to neither.
   */
  lemma PartitionExact(repos: seq<Option<string>>, cache: StarsCache, now: int, r: string)
    ensures r in FreshStars(repos, cache, now) <==> Some(r) in repos && r != "" && IsFresh(cache, r, now)
    ensures r in FreshStars(repos, cache, now) ==> FreshStars(repos, cache, now)[r] == cache[r].stars
    ensures r in StaleRepos(repos, cache, now) <==> Some(r) in repos && r != "" && !IsFresh(cache, r, now)
    ensures "" !in FreshStars(repos, cache, now) && "" !in StaleRepos(repos, cache, now)
  {
    StaleReposCount(repos, cache, now, r);
    StaleReposCount(repos, cache, now, "");
    assert r in NamedRepos(repos) <==> Some(r) in repos && r != "" by {
      if Some(r) in repos && r != "" {
        var i :| 0 <= i < |repos| && repos[i] == Some(r);
        assert IsNamed(repos[i]);
      }
    }
  }

  /** How a lookup settled: the promise was rejected, the response was not ok, or it carried this JSON field. */
  datatype FetchOutcome = Rejected | NotOk | Ok(stargazersCount: Option<int>)

  /** One settled lookup for `repo`, delivered at time `at`. */
  datatype Completion = Completion(repo: string, outcome: FetchOutcome, at: int)

  /** The count a settled lookup delivers: only an ok response whose `stargazers_count` is truthy (present and not 0). */
  function StarsFrom(outcome: FetchOutcome): (stars: Option<int>)
    ensures stars.Some? <==> outcome.Ok? && outcome.stargazersCount.Some? && outcome.stargazersCount.value != 0
    ensures stars.Some? ==> stars.value == outcome.stargazersCount.value
  {
    match outcome
    case Ok(Some(n)) => if n != 0 then Some(n) else None
    case _ => None
  }

  /** The displayed map and the browser store, the state the hook's callbacks change. */
  datatype HookState = HookState(shown: map<string, int>, stored: Stored)

  /**
   * Merging one settled lookup: a delivered count replaces `repo`'s value in
   * the displayed map, and the store is re-read and written back with
   * `repo`'s entry set to the count and the completion time. Nothing else
   * changes; a rejected, not-ok or zero-count lookup changes nothing at all.
   */
  function Complete(s: HookState, c: Completion): (t: HookState)
    ensures StarsFrom(c.outcome).None? ==> t == s
    ensures StarsFrom(c.outcome).Some? ==>
      && t.shown.Keys == s.shown.Keys + {c.repo}
      && t.shown[c.repo] == StarsFrom(c.outcome).value
      && (forall k :: k in s.shown && k != c.repo ==> t.shown[k] == s.shown[k])
    ensures StarsFrom(c.outcome).Some? ==>
      && t.stored.Parsed?
      && ReadCache(t.stored).Keys == ReadCache(s.stored).Keys + {c.repo}
      && ReadCache(t.stored)[c.repo] == CacheEntry(StarsFrom(c.outcome).value, c.at)
      && (forall k :: k in ReadCache(s.stored) && k != c.repo ==> ReadCache(t.stored)[k] == ReadCache(s.stored)[k])
  {
    match StarsFrom(c.outcome)
    case None => s
    case Some(stars) =>
      HookState(s.shown[c.repo := stars], Parsed(ReadCache(s.stored)[c.repo := CacheEntry(stars, c.at)]))
  }

  /** Applies settled lookups in the order they arrive. */
  function CompleteAll(s: HookState, cs: seq<Completion>): HookState {
    if cs == [] then s else Complete(CompleteAll(s, cs[..|cs| - 1]), cs[|cs| - 1])
  }

  /** The last lookup in `cs` that delivered a count for `r`, if any. */
  function LastDelivered(cs: seq<Completion>, r: string): (last: Option<Completion>)
    ensures last.Some? ==> last.value in cs && last.value.repo == r && StarsFrom(last.value.outcome).Some?
    ensures last.None? ==> forall c :: c in cs && c.repo == r ==> StarsFrom(c.outcome).None?
  {
    if cs == [] then None
    else if cs[|cs| - 1].repo == r && StarsFrom(cs[|cs| - 1].outcome).Some? then Some(cs[|cs| - 1])
    else LastDelivered(cs[..|cs| - 1], r)
  }

  /** Two lookups for different repositories can settle in either order with the same result. */
  lemma CompletionsCommute(s: HookState, a: Completion, b: Completion)
    requires a.repo != b.repo
    ensures Complete(Complete(s, a), b) == Complete(Complete(s, b), a)
  {
    if StarsFrom(a.outcome).Some? && StarsFrom(b.outcome).Some? {
      var m := ReadCache(s.stored);
      var ea, eb := CacheEntry(StarsFrom(a.outcome).value, a.at), CacheEntry(StarsFrom(b.outcome).value, b.at);
      assert m[a.repo := ea][b.repo := eb] == m[b.repo := eb][a.repo := ea];
      var sa, sb := StarsFrom(a.outcome).value, StarsFrom(b.outcome).value;
      assert s.shown[a.repo := sa][b.repo := sb] == s.shown[b.repo := sb][a.repo := sa];
    }
  }

  /**
   * Whatever the order of arrival: after a run of settled lookups, the shown
   * and cached values of `r` are those of the last lookup that delivered a
   * count for `r`; when none did, `r` is exactly as it was (absent stays
   * absent), however other repositories' lookups went.
   */
  lemma {:induction false} LastDeliveredWins(s: HookState, cs: seq<Completion>, r: string)
    ensures var t := CompleteAll(s, cs);
      match LastDelivered(cs, r)
      case Some(c) =>
        && r in t.shown && t.shown[r] == StarsFrom(c.outcome).value
        && r in ReadCache(t.stored) && ReadCache(t.stored)[r] == CacheEntry(StarsFrom(c.outcome).value, c.at)
      case None =>
        && (r in t.shown <==> r in s.shown)
        && (r in s.shown ==> t.shown[r] == s.shown[r])
        && (r in ReadCache(t.stored) <==> r in ReadCache(s.stored))
        && (r in ReadCache(s.stored) ==> ReadCache(t.stored)[r] == ReadCache(s.stored)[r])
  {
    if cs != [] {
      LastDeliveredWins(s, cs[..|cs| - 1], r);
    }
  }

  /**
   * Stale, then refreshed: once a lookup for `r` delivers a count, the next
   * pass within the time-to-live shows that count at once and does not look
   * `r` up again.
   */
  lemma DeliveredIsServedFresh(s: HookState, c: Completion, repos: seq<Option<string>>, now: int)
    requires StarsFrom(c.outcome).Some? && c.repo != "" && Some(c.repo) in repos
    requires now - c.at < CacheTtl
    ensures var cache := ReadCache(Complete(s, c).stored);
      && FreshStars(repos, cache, now)[c.repo] == StarsFrom(c.outcome).value
      && c.repo !in StaleRepos(repos, cache, now)
  {
    var cache := ReadCache(Complete(s, c).stored);
    PartitionExact(repos, cache, now, c.repo);
  }

  /**
   * The hook: the displayed star map (React state) and the browser store,
   * both changed in place by the effect and by the lookup callbacks.
   */
  class StarsHook {
    var shown: map<string, int>
    var stored: Stored

    function State(): HookState
      reads this
    {
      HookState(shown, stored)
    }

    /** A freshly mounted hook shows the empty map. */
    constructor (stored: Stored)
      ensures State() == HookState(map[], stored)
    {
      shown := map[];
      this.stored := stored;
    }

    /**
     * The effect: reads the store, replaces the shown map wholesale with the
     * fresh counts (stale cached counts are not shown), and returns the
     * lookups to start. The store is not written.
     */
    method RunEffect(repos: seq<Option<string>>, now: int) returns (toFetch: seq<string>)
      modifies this
      ensures shown == FreshStars(repos, ReadCache(old(stored)), now)
      ensures toFetch == StaleRepos(repos, ReadCache(old(stored)), now)
      ensures stored == old(stored)
    {
      var cache := ReadCache(stored);
      var initial;
      initial, toFetch := Partition(repos, cache, now);
      shown := initial;
    }

    /** The callback of one lookup: merges a delivered count, then re-reads, updates and writes the store. */
    method Settle(c: Completion)
      modifies this
      ensures State() == Complete(old(State()), c)
    {
      match StarsFrom(c.outcome)
      case None =>
      case Some(stars) =>
        shown := shown[c.repo := stars];
        var newCache := ReadCache(stored);
        newCache := newCache[c.repo := CacheEntry(stars, c.at)];
        stored := Parsed(newCache);
    }
  }
}
