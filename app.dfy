/**
 * The page: which offers are listed for the active category and search
 * query, in which order, when a key press moves focus to the search box,
 * and the results line with its clear button.
 */
module App {
  import opened Wrappers
  import opened Text
  import opened Benefits
  import GitHubStars
  import BenefitCard

  /** The repository list handed to the star hook: each offer's optional repository, in list order. */
  function Repos(benefits: seq<Benefit>): (repos: seq<Option<string>>)
    ensures |repos| == |benefits|
    ensures forall i :: 0 <= i < |benefits| ==> repos[i] == benefits[i].repo
  {
    seq(|benefits|, i requires 0 <= i < |benefits| => benefits[i].repo)
  }

  /** The category filter: `'All'` lets every offer through, any other category only its own offers. */
  predicate MatchesCategory(b: Benefit, activeCategory: string) {
    activeCategory == "All" || b.category == activeCategory
  }

  /** `field.toLowerCase().includes(query.toLowerCase())`. */
  predicate FieldMatches(field: string, query: string) {
    Includes(Lower(field), Lower(query))
  }

  /** The search filter: the name, the description or some tag contains the query. */
  predicate MatchesSearch(b: Benefit, query: string) {
    || FieldMatches(b.name, query)
    || FieldMatches(b.description, query)
    || exists tag | tag in b.tags :: FieldMatches(tag, query)
  }

  /** An offer is listed when it passes both filters. */
  predicate Kept(b: Benefit, activeCategory: string, query: string) {
    MatchesCategory(b, activeCategory) && MatchesSearch(b, query)
  }

  /**
   * The search is a case-insensitive substring test: an offer matches exactly
   * when its name, its description or one of its tags has a window equal to
   * the query up to letter case.
   */
  lemma MatchesSearchIff(b: Benefit, query: string)
    ensures MatchesSearch(b, query) <==>
      || (exists i :: MatchesAt(b.name, query, i))
      || (exists i :: MatchesAt(b.description, query, i))
      || (exists tag, i | tag in b.tags :: MatchesAt(tag, query, i))
  {
    CaseInsensitiveIncludes(b.name, query);
    CaseInsensitiveIncludes(b.description, query);
    forall tag | tag in b.tags
      ensures FieldMatches(tag, query) <==> exists i :: MatchesAt(tag, query, i)
    {
      CaseInsensitiveIncludes(tag, query);
    }
  }

  /** The empty query matches every offer. */
  lemma EmptyQueryMatchesAll(b: Benefit)
    ensures MatchesSearch(b, "")
  {
    assert Lower("") == "";
    IncludesEmpty(Lower(b.name));
  }

  /** `benefits.filter(...)`: the offers that pass both filters, in list order. */
  function FilterBenefits(benefits: seq<Benefit>, activeCategory: string, query: string): (kept: seq<Benefit>)
    ensures forall b :: multiset(kept)[b] == if Kept(b, activeCategory, query) then multiset(benefits)[b] else 0
  {
    if benefits == [] then []
    else
      var init, last := benefits[..|benefits| - 1], benefits[|benefits| - 1];
      assert benefits == init + [last];
      FilterBenefits(init, activeCategory, query) + (if Kept(last, activeCategory, query) then [last] else [])
  }

  /** The star count an offer ranks by: its repository's entry in the map, 0 without a repository or an entry. */
  function StarsOf(b: Benefit, starsMap: map<string, int>): int {
    if IsNamed(b.repo) && b.repo.value in starsMap then starsMap[b.repo.value] else 0
  }

  /** The sort comparator: more stars first, then higher popularity; negative means `a` goes first. */
  function Compare(a: Benefit, b: Benefit, starsMap: map<string, int>): int {
    var starsA, starsB := StarsOf(a, starsMap), StarsOf(b, starsMap);
    if starsB != starsA then starsB - starsA else b.popularity - a.popularity
  }

  /** `a` may precede `b`: it has more stars, or as many and at least the popularity. */
  lemma CompareMeaning(a: Benefit, b: Benefit, starsMap: map<string, int>)
    ensures Compare(a, b, starsMap) <= 0 <==>
      || StarsOf(a, starsMap) > StarsOf(b, starsMap)
      || (StarsOf(a, starsMap) == StarsOf(b, starsMap) && a.popularity >= b.popularity)
    ensures Compare(a, b, starsMap) == -Compare(b, a, starsMap)
  {
  }

  /** Every pair of the list is in comparator order. */
  predicate Ranked(s: seq<Benefit>, starsMap: map<string, int>) {
    forall i, j :: 0 <= i < j < |s| ==> Compare(s[i], s[j], starsMap) <= 0
  }

  /** `x` may precede every element of `s`. */
  predicate PrecedesAll(x: Benefit, s: seq<Benefit>, starsMap: map<string, int>) {
    forall j :: 0 <= j < |s| ==> Compare(x, s[j], starsMap) <= 0
  }

  lemma CompareTransitive(a: Benefit, b: Benefit, c: Benefit, starsMap: map<string, int>)
    requires Compare(a, b, starsMap) <= 0 && Compare(b, c, starsMap) <= 0
    ensures Compare(a, c, starsMap) <= 0
  {
  }

  lemma ConsRanked(x: Benefit, s: seq<Benefit>, starsMap: map<string, int>)
    requires PrecedesAll(x, s, starsMap) && Ranked(s, starsMap)
    ensures Ranked([x] + s, starsMap)
  {
    var r := [x] + s;
    forall i, j | 0 <= i < j < |r| ensures Compare(r[i], r[j], starsMap) <= 0 {
      if i == 0 { assert r[j] == s[j - 1]; } else { assert r[i] == s[i - 1] && r[j] == s[j - 1]; }
    }
  }

  /** Places `x` before the first element it may precede; ties keep `x` first. */
  function Insert(x: Benefit, s: seq<Benefit>, starsMap: map<string, int>): (r: seq<Benefit>)
    ensures multiset(r) == multiset(s) + multiset{x}
  {
    if s == [] then [x]
    else if Compare(x, s[0], starsMap) <= 0 then [x] + s
    else
      assert s == [s[0]] + s[1..];
      [s[0]] + Insert(x, s[1..], starsMap)
  }

  /** Whatever may precede `x` and all of `s` may still precede all of `s` once `x` is inserted. */
  lemma {:induction false} InsertBounded(y: Benefit, x: Benefit, s: seq<Benefit>, starsMap: map<string, int>)
    requires PrecedesAll(y, s, starsMap) && Compare(y, x, starsMap) <= 0
    ensures PrecedesAll(y, Insert(x, s, starsMap), starsMap)
  {
    if s != [] && Compare(x, s[0], starsMap) > 0 {
      InsertBounded(y, x, s[1..], starsMap);
    }
  }

  /** Inserting into a ranked list gives a ranked list. */
  lemma {:induction false} InsertRanked(x: Benefit, s: seq<Benefit>, starsMap: map<string, int>)
    requires Ranked(s, starsMap)
    ensures Ranked(Insert(x, s, starsMap), starsMap)
  {
    if s == [] {
    } else if Compare(x, s[0], starsMap) <= 0 {
      forall j | 0 <= j < |s| ensures Compare(x, s[j], starsMap) <= 0 {
        if j > 0 { CompareTransitive(x, s[0], s[j], starsMap); }
      }
      ConsRanked(x, s, starsMap);
    } else {
      InsertRanked(x, s[1..], starsMap);
      CompareMeaning(x, s[0], starsMap);
      InsertBounded(s[0], x, s[1..], starsMap);
      ConsRanked(s[0], Insert(x, s[1..], starsMap), starsMap);
    }
  }

  /** `Array.prototype.sort` with the comparator, as a stable insertion sort. */
  function Sort(s: seq<Benefit>, starsMap: map<string, int>): (r: seq<Benefit>)
    ensures multiset(r) == multiset(s)
    ensures Ranked(r, starsMap)
  {
    if s == [] then []
    else
      assert s == [s[0]] + s[1..];
      var rest := Sort(s[1..], starsMap);
      InsertRanked(s[0], rest, starsMap);
      Insert(s[0], rest, starsMap)
  }

  /**
   * `filteredBenefits`: the offers passing both filters, each as often as in
   * the list, in comparator order.
   */
  function FilteredBenefits(benefits: seq<Benefit>, activeCategory: string, query: string, starsMap: map<string, int>)
    : (r: seq<Benefit>)
    ensures forall b :: multiset(r)[b] == if Kept(b, activeCategory, query) then multiset(benefits)[b] else 0
    ensures Ranked(r, starsMap)
  {
    Sort(FilterBenefits(benefits, activeCategory, query), starsMap)
  }

  /**
   * What the listed results look like: every one passes both filters, and
   * they are ordered by stars (missing counts as 0), then by popularity,
   * both descending.
   */
  lemma FilteredBenefitsOrder(benefits: seq<Benefit>, activeCategory: string, query: string, starsMap: map<string, int>)
    ensures var r := FilteredBenefits(benefits, activeCategory, query, starsMap);
      && (forall i :: 0 <= i < |r| ==> Kept(r[i], activeCategory, query))
      && (forall i, j :: 0 <= i < j < |r| ==> StarsOf(r[i], starsMap) >= StarsOf(r[j], starsMap))
      && (forall i, j :: 0 <= i < j < |r| && StarsOf(r[i], starsMap) == StarsOf(r[j], starsMap) ==>
            r[i].popularity >= r[j].popularity)
  {
    var r := FilteredBenefits(benefits, activeCategory, query, starsMap);
    forall i | 0 <= i < |r| ensures Kept(r[i], activeCategory, query) {
      assert r[i] in multiset(r);
    }
    forall i, j | 0 <= i < j < |r|
      ensures StarsOf(r[i], starsMap) >= StarsOf(r[j], starsMap)
      ensures StarsOf(r[i], starsMap) == StarsOf(r[j], starsMap) ==> r[i].popularity >= r[j].popularity
    {
      CompareMeaning(r[i], r[j], starsMap);
    }
  }

  /**
   * Ranking right after the star effect: an offer whose repository has a
   * fresh cached entry ranks by the cached count, every other offer by 0
   * (a stale count is not used until its lookup lands).
   */
  lemma RankAfterEffect(benefits: seq<Benefit>, cache: GitHubStars.StarsCache, now: int, b: Benefit)
    requires b in benefits
    ensures StarsOf(b, GitHubStars.FreshStars(Repos(benefits), cache, now))
         == if IsNamed(b.repo) && GitHubStars.IsFresh(cache, b.repo.value, now) then cache[b.repo.value].stars else 0
  {
    if IsNamed(b.repo) {
      var i :| 0 <= i < |benefits| && benefits[i] == b;
      assert Repos(benefits)[i] == b.repo;
      GitHubStars.PartitionExact(Repos(benefits), cache, now, b.repo.value);
    }
  }

  /** The count handed to an offer's card: the map's entry for its repository, or none. */
  function CardStars(b: Benefit, starsMap: map<string, int>): (stars: Option<int>)
    ensures stars.Some? <==> IsNamed(b.repo) && b.repo.value in starsMap
    ensures stars.Some? ==> stars.value == starsMap[b.repo.value]
  {
    if IsNamed(b.repo) && b.repo.value in starsMap then Some(starsMap[b.repo.value]) else None
  }

  /**
   * A card shows its star badge exactly when its repository has an entry in
   * the map, and the badge shows the count the list was ranked by.
   */
  lemma CardBadgeShowsRank(b: Benefit, starsMap: map<string, int>, tieUp: bool)
    ensures var badge := BenefitCard.StarBadge(b, CardStars(b, starsMap), tieUp);
      && (badge.Some? <==> IsNamed(b.repo) && b.repo.value in starsMap)
      && (badge.Some? ==> badge.value.text == BenefitCard.FormatStars(StarsOf(b, starsMap), tieUp))
  {
  }

  /** What a key press is aimed at. */
  datatype Target = InputElement | TextAreaElement | OtherElement

  /** The fields of a `keydown` event the handler reads. */
  datatype KeyEvent = KeyEvent(key: string, metaKey: bool, ctrlKey: bool, altKey: bool, target: Target)

  predicate IsAsciiAlphanumeric(c: char) {
    'a' <= c <= 'z' || 'A' <= c <= 'Z' || '0' <= c <= '9'
  }

  /** `/[a-zA-Z0-9]/.test(key)`: some character of the key is an ASCII letter or digit. */
  predicate HasAlphanumeric(key: string) {
    exists i :: 0 <= i < |key| && IsAsciiAlphanumeric(key[i])
  }

  /**
   * The keydown handler's decision to focus the search box: ignored in an
   * input or a text area, ignored with a modifier held, otherwise taken
   * for a one-character key the pattern accepts.
   */
  function FocusesSearch(e: KeyEvent): (focus: bool)
    ensures focus <==>
      && |e.key| == 1 && IsAsciiAlphanumeric(e.key[0])
      && !e.metaKey && !e.ctrlKey && !e.altKey
      && e.target != InputElement && e.target != TextAreaElement
  {
    if e.target.InputElement? || e.target.TextAreaElement? then false
    else if e.metaKey || e.ctrlKey || e.altKey then false
    else |e.key| == 1 && HasAlphanumeric(e.key)
  }

  /** The noun after the count: singular for exactly one result. */
  function PerkNoun(count: nat): (noun: string)
    ensures noun == "perk" <==> count == 1
    ensures noun == "perks" <==> count != 1
  {
    if count == 1 then "perk" else "perks"
  }

  /** The page's own state: the active category and the search text. */
  datatype PageState = PageState(activeCategory: string, searchQuery: string)

  /** The page as first rendered: every category, no query. */
  function InitialPage(): (s: PageState)
    ensures s.activeCategory == "All" && s.searchQuery == ""
    ensures !ClearButtonShown(s)
  {
    PageState("All", "")
  }

  /** The first render lists every offer, each as often as it occurs. */
  lemma InitialPageListsAll(benefits: seq<Benefit>, starsMap: map<string, int>)
    ensures var s := InitialPage();
      multiset(FilteredBenefits(benefits, s.activeCategory, s.searchQuery, starsMap)) == multiset(benefits)
  {
    var s := InitialPage();
    forall b ensures Kept(b, s.activeCategory, s.searchQuery) {
      EmptyQueryMatchesAll(b);
    }
  }

  /** The clear button is rendered exactly when the query is not empty. */
  predicate ClearButtonShown(s: PageState) {
    s.searchQuery != ""
  }

  /** Pressing the clear button empties the query and keeps the category. */
  function ClearSearch(s: PageState): (t: PageState)
    ensures t.searchQuery == "" && t.activeCategory == s.activeCategory
    ensures !ClearButtonShown(t)
  {
    s.(searchQuery := "")
  }

  /** After clearing, the list holds every offer of the active category again. */
  lemma ClearedSearchListsWholeCategory(s: PageState, benefits: seq<Benefit>, starsMap: map<string, int>, b: Benefit)
    ensures var t := ClearSearch(s);
      multiset(FilteredBenefits(benefits, t.activeCategory, t.searchQuery, starsMap))[b]
      == if MatchesCategory(b, s.activeCategory) then multiset(benefits)[b] else 0
  {
    EmptyQueryMatchesAll(b);
  }
}
