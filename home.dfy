/**
 * The home page: the recommendation feed (a personalised prefix seeded by the
 * latest recent search, then random catalog backfill), the featured expert,
 * the trending list (a Fisher-Yates shuffle of the catalog cut to ten), the
 * three-slot trending carousel and the search box.
 */
module Home {
  import opened Common
  import opened Text
  import opened Seqs

  /** The requests the recommendation effect issues, in order. */
  datatype Fetch =
    | GetRecentSearches(email: string)
    | PostRecommendations(recentSearches: seq<string>)
    | GetCatalog

  datatype FeedRun = FeedRun(feed: seq<Expert>, fetches: seq<Fetch>)

  /**
   * A stand-in for `sort(() => Math.random() - 0.5)`: whatever order it
   * produces, it rearranges its input without adding or dropping anything.
   */
  ghost predicate IsShuffle(shuffle: seq<Expert> -> seq<Expert>) {
    forall s :: multiset(shuffle(s)) == multiset(s)
  }

  /**
   * The seed sent with the recommendation request: the first recent search
   * when the reply holds a non-empty array, else nothing.
   */
  function Seed(recent: seq<string>): (seed: seq<string>)
    ensures |seed| <= 1
    ensures seed == Take(recent, 1)
  {
    if |recent| > 0 then [recent[0]] else []
  }

  /** The seed the recommendation request carries, given the recent-search reply. */
  function SeedOf(recent: Payload<seq<string>>): (seed: seq<string>)
    ensures |seed| <= 1
    ensures recent.Parsed? && recent.value != [] ==> seed == [recent.value[0]]
    ensures !(recent.Parsed? && recent.value != []) ==> seed == []
  {
    if recent.Parsed? then Seed(recent.value) else []
  }

  /** The personalised prefix: the first three experts of the reply, in server order. */
  function Personalized(reply: Payload<seq<Expert>>): (prefix: seq<Expert>)
    requires !reply.Failed?
    ensures |prefix| <= 3
    ensures reply.Malformed? ==> prefix == []
    ensures reply.Parsed? ==> |prefix| <= |reply.value| && prefix == reply.value[..|prefix|]
    ensures reply.Parsed? && |reply.value| <= 3 ==> prefix == reply.value
    ensures reply.Parsed? ==> |prefix| == if |reply.value| < 3 then |reply.value| else 3
  {
    if reply.Parsed? then Take(reply.value, 3) else []
  }

  /** `new Set(recommended.map(e => e._id ?? e.id))`. */
  function ShownIds(prefix: seq<Expert>): (ids: set<Id>)
    ensures forall e :: e in prefix ==> Key(e) in ids
    ensures forall k :: k in ids ==> exists e :: e in prefix && Key(e) == k
  {
    set e | e in prefix :: Key(e)
  }

  /**
   * The catalog experts the backfill may draw on: every copy of each one
   * whose `_id ?? id` is not among the shown ids, in catalog order.
   */
  function Eligible(catalog: seq<Expert>, ids: set<Id>): (rest: seq<Expert>)
    ensures IsSubsequence(rest, catalog)
    ensures forall e :: e in rest <==> e in catalog && Key(e) !in ids
    ensures forall e :: multiset(rest)[e] == if Key(e) !in ids then multiset(catalog)[e] else 0
    ensures multiset(rest) <= multiset(catalog)
  {
    Filter(catalog, e => Key(e) !in ids)
  }

  /**
   * The backfill: the first two eligible catalog experts in shuffled order,
   * so two of them whenever at least two are eligible, each catalog copy
   * used at most once, and none whose id is among the shown ones.
   */
  function Backfill(catalog: seq<Expert>, ids: set<Id>, shuffle: seq<Expert> -> seq<Expert>): (extra: seq<Expert>)
    requires IsShuffle(shuffle)
    ensures |extra| == var n := |Eligible(catalog, ids)|; if n < 2 then n else 2
    ensures multiset(extra) <= multiset(Eligible(catalog, ids))
    ensures multiset(extra) <= multiset(catalog)
    ensures forall e :: e in extra ==> e in catalog && Key(e) !in ids
  {
    var rest := Eligible(catalog, ids);
    var mixed := shuffle(rest);
    SameMultisetSameLength(mixed, rest);
    var extra := Take(mixed, 2);
    TakeSubMultiset(mixed, 2);
    SubMultisetMembers(extra, rest);
    extra
  }

  /**
   * `fetchRecommendationsAndRandoms`: no user email gives an empty feed and
   * no request; otherwise the recent searches, the recommendations and the
   * catalog are fetched in turn and the feed is the prefix followed by the
   * backfill. Any request that throws empties the feed and stops the chain.
   */
  function Recommend(
    email: string,
    recent: Payload<seq<string>>,
    recommender: seq<string> -> Payload<seq<Expert>>,
    catalog: Payload<seq<Expert>>,
    shuffle: seq<Expert> -> seq<Expert>): (run: FeedRun)
    requires IsShuffle(shuffle)
    ensures email == "" ==> run == FeedRun([], [])
    ensures |run.feed| <= 5
    ensures |run.fetches| <= 3
  {
    if email == "" then FeedRun([], [])
    else if recent.Failed? then FeedRun([], [GetRecentSearches(email)])
    else
      var seed := SeedOf(recent);
      var reply := recommender(seed);
      var fetches := [GetRecentSearches(email), PostRecommendations(seed)];
      if reply.Failed? then FeedRun([], fetches)
      else
        var prefix := Personalized(reply);
        if !catalog.Parsed? then FeedRun([], fetches + [GetCatalog])
        else FeedRun(prefix + Backfill(catalog.value, ShownIds(prefix), shuffle), fetches + [GetCatalog])
  }

  /** Without an email nothing is fetched and the feed is empty. */
  lemma NoUserNoFeed(recent: Payload<seq<string>>, recommender: seq<string> -> Payload<seq<Expert>>,
                     catalog: Payload<seq<Expert>>, shuffle: seq<Expert> -> seq<Expert>)
    requires IsShuffle(shuffle)
    ensures Recommend("", recent, recommender, catalog, shuffle).feed == []
    ensures Recommend("", recent, recommender, catalog, shuffle).fetches == []
  {
  }

  /**
   * With an email, the recommendation request carries at most one search:
   * the first recent search, or none when the recent-search reply is not an
   * array.
   */
  lemma SeedIsLatestSearch(email: string, recent: Payload<seq<string>>, recommender: seq<string> -> Payload<seq<Expert>>,
                           catalog: Payload<seq<Expert>>, shuffle: seq<Expert> -> seq<Expert>)
    requires IsShuffle(shuffle)
    requires email != "" && !recent.Failed?
    ensures var run := Recommend(email, recent, recommender, catalog, shuffle);
      && |run.fetches| >= 2
      && run.fetches[0] == GetRecentSearches(email)
      && run.fetches[1].PostRecommendations?
      && |run.fetches[1].recentSearches| <= 1
      && (recent.Malformed? ==> run.fetches[1].recentSearches == [])
      && (recent.Parsed? && recent.value != [] ==> run.fetches[1].recentSearches == [recent.value[0]])
  {
  }

  /**
   * When no request throws and the catalog is an array, the three requests
   * go out in order and the feed is the personalised prefix followed by the
   * backfill drawn from the catalog.
   */
  lemma FeedWhenAllSucceed(email: string, recent: Payload<seq<string>>, recommender: seq<string> -> Payload<seq<Expert>>,
                           catalog: Payload<seq<Expert>>, shuffle: seq<Expert> -> seq<Expert>)
    requires IsShuffle(shuffle)
    requires email != "" && !recent.Failed? && catalog.Parsed? && !recommender(SeedOf(recent)).Failed?
    ensures var prefix := Personalized(recommender(SeedOf(recent)));
      Recommend(email, recent, recommender, catalog, shuffle) ==
        FeedRun(prefix + Backfill(catalog.value, ShownIds(prefix), shuffle),
                [GetRecentSearches(email), PostRecommendations(SeedOf(recent)), GetCatalog])
  {
  }

  /**
   * When every request succeeds, the feed has the first three experts of the
   * reply (all of a shorter reply) followed by two eligible catalog experts
   * (all of them when fewer are eligible). A reply of two experts with at
   * least two other catalog experts eligible gives a feed of four.
   */
  lemma FeedLength(email: string, recent: Payload<seq<string>>, recommender: seq<string> -> Payload<seq<Expert>>,
                   catalog: Payload<seq<Expert>>, shuffle: seq<Expert> -> seq<Expert>)
    requires IsShuffle(shuffle)
    requires email != "" && !recent.Failed? && catalog.Parsed? && recommender(SeedOf(recent)).Parsed?
    ensures var reply := recommender(SeedOf(recent)).value;
      var n := |Eligible(catalog.value, ShownIds(Personalized(recommender(SeedOf(recent)))))|;
      var feed := Recommend(email, recent, recommender, catalog, shuffle).feed;
      && |feed| == (if |reply| < 3 then |reply| else 3) + (if n < 2 then n else 2)
      && (|reply| == 2 && n >= 2 ==> |feed| == 4)
  {
  }

  /**
   * A feed made of a prefix and its backfill starts with the prefix, adds at
   * most two catalog experts, and none of those shares an id with the prefix.
   */
  lemma PrefixThenBackfill(prefix: seq<Expert>, catalog: seq<Expert>, shuffle: seq<Expert> -> seq<Expert>)
    requires IsShuffle(shuffle)
    ensures var feed := prefix + Backfill(catalog, ShownIds(prefix), shuffle);
      && |prefix| <= |feed| <= |prefix| + 2
      && feed[..|prefix|] == prefix
      && forall i :: |prefix| <= i < |feed| ==>
           feed[i] in catalog && forall p :: p in prefix ==> Key(feed[i]) != Key(p)
  {
    var extra := Backfill(catalog, ShownIds(prefix), shuffle);
    var feed := prefix + extra;
    forall i | |prefix| <= i < |feed|
      ensures feed[i] in catalog && forall p :: p in prefix ==> Key(feed[i]) != Key(p)
    {
      assert feed[i] == extra[i - |prefix|];
    }
  }

  /** A request that throws at any step, a catalog that is not an array included, leaves the feed empty. */
  lemma FailureEmptiesFeed(email: string, recent: Payload<seq<string>>, recommender: seq<string> -> Payload<seq<Expert>>,
                           catalog: Payload<seq<Expert>>, shuffle: seq<Expert> -> seq<Expert>)
    requires IsShuffle(shuffle)
    requires recent.Failed? || recommender(SeedOf(recent)).Failed? || !catalog.Parsed?
    ensures Recommend(email, recent, recommender, catalog, shuffle).feed == []
  {
  }

  /** The featured expert: the first of the feed, or none when the feed is empty. */
  function Featured(feed: seq<Expert>): (f: Option<Expert>)
    ensures f.None? <==> feed == []
    ensures f.Some? ==> f.value == feed[0]
  {
    if |feed| > 0 then Some(feed[0]) else None
  }

  // ----- the trending list -----

  /** `[s[i], s[j]] = [s[j], s[i]]`. */
  function Swap(s: seq<Expert>, i: nat, j: nat): seq<Expert>
    requires i < |s| && j < |s|
  {
    s[i := s[j]][j := s[i]]
  }

  lemma SwapPermutes(s: seq<Expert>, i: nat, j: nat)
    requires i < |s| && j < |s|
    ensures multiset(Swap(s, i, j)) == multiset(s)
  {
  }

  /**
   * The loop `for (i = k; i > 0; i--) swap(i, draw(i))` on a sequence, where
   * `draw(i)` stands for `Math.floor(Math.random() * (i + 1))`.
   */
  function ShuffleFrom(s: seq<Expert>, k: int, draw: nat -> nat): (r: seq<Expert>)
    requires k < |s|
    requires forall i: nat :: draw(i) <= i
    ensures |r| == |s|
    decreases k
  {
    if k <= 0 then s else ShuffleFrom(Swap(s, k, draw(k)), k - 1, draw)
  }

  /** The whole Fisher-Yates loop on `s`, from the last index down to 1. */
  function Shuffled(s: seq<Expert>, draw: nat -> nat): seq<Expert>
    requires forall i: nat :: draw(i) <= i
  {
    ShuffleFrom(s, |s| - 1, draw)
  }

  /** The loop only swaps, so it rearranges the fetched experts and nothing else. */
  lemma {:induction false} ShuffleFromPermutes(s: seq<Expert>, k: int, draw: nat -> nat)
    requires k < |s|
    requires forall i: nat :: draw(i) <= i
    ensures multiset(ShuffleFrom(s, k, draw)) == multiset(s)
    decreases k
  {
    if k > 0 {
      SwapPermutes(s, k, draw(k));
      ShuffleFromPermutes(Swap(s, k, draw(k)), k - 1, draw);
    }
  }

  lemma ShuffledPermutes(s: seq<Expert>, draw: nat -> nat)
    requires forall i: nat :: draw(i) <= i
    ensures multiset(Shuffled(s, draw)) == multiset(s)
  {
    ShuffleFromPermutes(s, |s| - 1, draw);
  }

  /** One turn of the loop: swap at `k`, then finish from `k - 1`. */
  lemma ShuffleFromStep(s: seq<Expert>, k: nat, draw: nat -> nat)
    requires 0 < k < |s|
    requires forall i: nat :: draw(i) <= i
    ensures ShuffleFrom(s, k, draw) == ShuffleFrom(Swap(s, k, draw(k)), k - 1, draw)
  {
  }

  /** The in-place loop of the trending effect. */
  method ShuffleInPlace(a: array<Expert>, draw: nat -> nat)
    requires forall i: nat :: draw(i) <= i
    modifies a
    ensures a[..] == Shuffled(old(a[..]), draw)
  {
    if a.Length == 0 {
      return;
    }
    ghost var goal := Shuffled(a[..], draw);
    var i: nat := a.Length - 1;
    while i > 0
      invariant i < a.Length
      invariant ShuffleFrom(a[..], i, draw) == goal
    {
      var j := draw(i);
      ghost var before := a[..];
      ShuffleFromStep(before, i, draw);
      a[i], a[j] := a[j], a[i];
      assert a[..] == Swap(before, i, j);
      i := i - 1;
    }
  }

  /** The trending list is at most ten of the fetched experts, each copy used at most once. */
  lemma TrendingFromCatalog(data: seq<Expert>, draw: nat -> nat)
    requires forall i: nat :: draw(i) <= i
    ensures |Take(Shuffled(data, draw), 10)| <= 10
    ensures multiset(Take(Shuffled(data, draw), 10)) <= multiset(data)
  {
    var sh := Shuffled(data, draw);
    ShuffledPermutes(data, draw);
    var t := Take(sh, 10);
    assert sh == t + sh[|t|..];
    assert multiset(sh) == multiset(t) + multiset(sh[|t|..]);
  }

  // ----- the carousel -----

  /**
   * One tick of the interval `setCarouselIndex(i => (i + 1) % n)`; with fewer
   * than three trending experts no interval is installed and nothing ticks.
   */
  function Tick(index: nat, n: nat): (next: nat)
    ensures n >= 3 ==> next < n
    ensures n < 3 ==> next == index
  {
    if n >= 3 then (index + 1) % n else index
  }

  /** From the last index a tick wraps to the first; otherwise it steps forward. */
  lemma TickStep(index: nat, n: nat)
    requires n >= 3 && index < n
    ensures Tick(index, n) == if index + 1 < n then index + 1 else 0
  {
  }

  function TickTimes(index: nat, n: nat, k: nat): nat {
    if k == 0 then index else Tick(TickTimes(index, n, k - 1), n)
  }

  lemma {:induction false} TickTimesAdd(index: nat, n: nat, a: nat, b: nat)
    ensures TickTimes(index, n, a + b) == TickTimes(TickTimes(index, n, a), n, b)
  {
    if b > 0 {
      TickTimesAdd(index, n, a, b - 1);
    }
  }

  /** Before the end of the list, k ticks advance the index by k. */
  lemma {:induction false} TickTimesForward(index: nat, n: nat, k: nat)
    requires n >= 3 && index + k < n
    ensures TickTimes(index, n, k) == index + k
  {
    if k > 0 {
      TickTimesForward(index, n, k - 1);
      TickStep(index + k - 1, n);
    }
  }

  /** After n ticks the carousel is back where it started. */
  lemma TickCycle(index: nat, n: nat)
    requires n >= 3 && index < n
    ensures TickTimes(index, n, n) == index
  {
    TickTimesAdd(index, n, n - index, index);
    TickTimesForward(index, n, n - index - 1);
    TickStep(n - 1, n);
    assert TickTimes(index, n, n - index) == 0;
    TickTimesForward(0, n, index);
  }

  /**
   * The three cards: slot k shows the expert at `(index + k) % n`, and no
   * expert when the list is empty.
   */
  function Window(trending: seq<Expert>, index: nat): (w: seq<Option<Expert>>)
    ensures |w| == 3
  {
    var n := |trending|;
    seq(3, k requires 0 <= k < 3 => if n == 0 then None else Some(trending[(index + k) % n]))
  }

  /** Only the middle card of the window is highlighted. */
  predicate Highlighted(slot: nat)
    ensures Highlighted(slot) <==> slot == 1
  {
    slot == 1
  }

  /** A tick slides the window one expert forward: the old second and third cards become the first and second. */
  lemma WindowSlides(trending: seq<Expert>, index: nat)
    requires |trending| >= 3 && index < |trending|
    ensures Window(trending, Tick(index, |trending|))[..2] == Window(trending, index)[1..]
  {
    var n := |trending|;
    TickStep(index, n);
    var next := Tick(index, n);
    WindowWraps(trending, index);
    WindowWraps(trending, next);
    if index + 1 == n {
      WrapAtEnd(n);
    }
  }

  /** The remainders the last-to-first wrap of the carousel needs. */
  lemma WrapAtEnd(n: nat)
    requires n >= 3
    ensures 0 % n == 0 && 1 % n == 1 && n % n == 0 && (n + 1) % n == 1
  {
  }

  /** With at least one trending expert every slot is filled, wrapping past the end. */
  lemma WindowWraps(trending: seq<Expert>, index: nat)
    requires |trending| > 0
    ensures var n := |trending|;
      Window(trending, index) == [Some(trending[index % n]), Some(trending[(index + 1) % n]), Some(trending[(index + 2) % n])]
  {
  }

  /**
   * `handleSearchSubmit`: a blank search does nothing; otherwise the page
   * navigates to the catalog with the trimmed search as its query.
   */
  function SearchTarget(search: string): (query: Option<string>)
    ensures query.None? <==> IsBlank(search)
    ensures query.Some? ==> query.value == Trim(search) && query.value != [] && IsTrimmed(query.value)
  {
    TrimEmptyIffBlank(search);
    if Trim(search) == [] then None else Some(Trim(search))
  }

  /** The state of the home page that its effects and its timer update. */
  class HomePage {
    var recommended: seq<Expert>
    var featured: Option<Expert>
    var trending: seq<Expert>
    var carouselIndex: nat

    /** The featured expert always follows the feed. */
    ghost predicate Valid()
      reads this
    {
      featured == Featured(recommended)
    }

    constructor ()
      ensures Valid()
      ensures recommended == [] && trending == [] && carouselIndex == 0
    {
      recommended, featured, trending, carouselIndex := [], None, [], 0;
    }

    /** The recommendation effect, followed by the effect that picks the featured expert. */
    method RefreshRecommendations(
      email: string,
      recent: Payload<seq<string>>,
      recommender: seq<string> -> Payload<seq<Expert>>,
      catalog: Payload<seq<Expert>>,
      shuffle: seq<Expert> -> seq<Expert>) returns (fetches: seq<Fetch>)
      requires IsShuffle(shuffle)
      modifies this`recommended, this`featured
      ensures Valid()
      ensures recommended == Recommend(email, recent, recommender, catalog, shuffle).feed
      ensures fetches == Recommend(email, recent, recommender, catalog, shuffle).fetches
    {
      var run := Recommend(email, recent, recommender, catalog, shuffle);
      recommended := run.feed;
      featured := Featured(recommended);
      fetches := run.fetches;
    }

    /**
     * The trending effect: copy the fetched array, shuffle it in place and
     * keep its first ten; a reply that is not an array, or a failed request,
     * gives an empty list. The carousel index is not reset.
     */
    method LoadTrending(reply: Payload<seq<Expert>>, draw: nat -> nat)
      requires forall i: nat :: draw(i) <= i
      modifies this`trending
      ensures trending == if reply.Parsed? then Take(Shuffled(reply.value, draw), 10) else []
    {
      if reply.Parsed? {
        var data := reply.value;
        var a := new Expert[|data|](i requires 0 <= i < |data| => data[i]);
        assert a[..] == data;
        ShuffleInPlace(a, draw);
        trending := Take(a[..], 10);
      } else {
        trending := [];
      }
    }

    /** One firing of the carousel interval. */
    method TickCarousel()
      modifies this`carouselIndex
      ensures carouselIndex == Tick(old(carouselIndex), |trending|)
    {
      carouselIndex := Tick(carouselIndex, |trending|);
    }

    /** The three trending cards on screen. */
    function Cards(): seq<Option<Expert>>
      reads this
    {
      Window(trending, carouselIndex)
    }
  }
}
