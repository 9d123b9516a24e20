/**
 * The experts catalog page: word capitalisation of domain labels, the
 * two-stage search filter, the sorted list of domain options, the domain
 * selection toggle, and the recent-search list mirrored from the server.
 */
module Experts {
  import opened Common
  import opened Text
  import opened Seqs

  /** The regular-expression class `\w` on ASCII. */
  predicate IsWordChar(c: char) {
    ('a' <= c <= 'z') || ('A' <= c <= 'Z') || ('0' <= c <= '9') || c == '_'
  }

  /**
   * `\b\w` matches at index i: a word character at the start of the string or
   * right after a non-word character.
   */
  predicate StartsWord(s: string, i: int)
    requires 0 <= i < |s|
  {
    IsWordChar(s[i]) && (i == 0 || !IsWordChar(s[i - 1]))
  }

  /** The character `replace(/\b\w/g, l => l.toUpperCase())` puts at index i. */
  function CapitalizedAt(s: string, i: int): char
    requires 0 <= i < |s|
  {
    if StartsWord(s, i) then UpperChar(s[i]) else s[i]
  }

  /** The left-to-right scan of the replacement, from index k on. */
  function CapitalizeFrom(s: string, k: nat): (r: string)
    requires k <= |s|
    ensures |r| == |s| - k
    ensures forall i :: k <= i < |s| ==> r[i - k] == CapitalizedAt(s, i)
    decreases |s| - k
  {
    if k == |s| then []
    else
      var c := if IsWordChar(s[k]) && (k == 0 || !IsWordChar(s[k - 1])) then UpperChar(s[k]) else s[k];
      [c] + CapitalizeFrom(s, k + 1)
  }

  /**
   * `capitalizeWords(str)`: "" for the empty string, otherwise the string
   * with each word character that starts a word upper-cased and every other
   * character kept.
   */
  function CapitalizeWords(s: string): (r: string)
    ensures |r| == |s|
    ensures forall i :: 0 <= i < |s| ==> r[i] == CapitalizedAt(s, i)
  {
    if s == [] then "" else CapitalizeFrom(s, 0)
  }

  /** Capitalising twice is capitalising once. */
  lemma CapitalizeWordsIdempotent(s: string)
    ensures CapitalizeWords(CapitalizeWords(s)) == CapitalizeWords(s)
  {
    var r := CapitalizeWords(s);
    assert forall i :: 0 <= i < |s| ==> IsWordChar(r[i]) == IsWordChar(s[i]);
    assert forall i :: 0 <= i < |s| ==> StartsWord(r, i) == StartsWord(s, i);
  }

  // ----- the filter effect -----

  /** An expert passes the domain stage: its capitalised domain is selected. */
  predicate InSelectedDomain(selected: seq<string>, e: Expert) {
    CapitalizeWords(e.domain) in selected
  }

  /** An expert passes the text stage for the lower-cased term `l`. */
  predicate MatchesTerm(l: string, e: Expert) {
    Includes(Lower(e.name), l) || Includes(Lower(e.domain), l) || Includes(Lower(e.location), l)
  }

  /** First stage: with domains selected, keep the experts in one of them. */
  function DomainStage(experts: seq<Expert>, selected: seq<string>): (r: seq<Expert>)
    ensures selected == [] ==> r == experts
    ensures IsSubsequence(r, experts)
    ensures selected != [] ==> forall e :: e in r <==> e in experts && InSelectedDomain(selected, e)
    ensures selected != [] ==> forall e :: InSelectedDomain(selected, e) ==> multiset(r)[e] == multiset(experts)[e]
  {
    SubsequenceRefl(experts);
    if |selected| > 0 then Filter(experts, e => InSelectedDomain(selected, e)) else experts
  }

  /**
   * Second stage: with a term that is not blank, keep the experts whose
   * lower-cased name, domain or location includes the lower-cased, untrimmed
   * term.
   */
  function TextStage(experts: seq<Expert>, term: string): (r: seq<Expert>)
    ensures IsBlank(term) ==> r == experts
    ensures IsSubsequence(r, experts)
    ensures !IsBlank(term) ==> forall e :: e in r <==> e in experts && MatchesTerm(Lower(term), e)
    ensures !IsBlank(term) ==> forall e :: MatchesTerm(Lower(term), e) ==> multiset(r)[e] == multiset(experts)[e]
  {
    TrimEmptyIffBlank(term);
    SubsequenceRefl(experts);
    if Trim(term) != [] then
      var l := Lower(term);
      Filter(experts, e => MatchesTerm(l, e))
    else experts
  }

  /** An expert passes both stages, each of which lets everything through when it is inactive. */
  predicate PassesBoth(selected: seq<string>, term: string, e: Expert) {
    && (selected == [] || InSelectedDomain(selected, e))
    && (IsBlank(term) || MatchesTerm(Lower(term), e))
  }

  /**
   * The filtered list shown on the page: a subsequence of the catalog (order
   * kept, nothing added) and of the domain-stage result, holding exactly the
   * experts that pass both stages.
   */
  function FilterExperts(experts: seq<Expert>, selected: seq<string>, term: string): (r: seq<Expert>)
    ensures IsSubsequence(r, experts)
    ensures IsSubsequence(r, DomainStage(experts, selected))
    ensures forall e :: e in r <==>
      && e in experts
      && (selected == [] || InSelectedDomain(selected, e))
      && (IsBlank(term) || MatchesTerm(Lower(term), e))
    ensures forall e :: multiset(r)[e] == if PassesBoth(selected, term, e) then multiset(experts)[e] else 0
  {
    var d := DomainStage(experts, selected);
    var r := TextStage(d, term);
    SubsequenceTrans(r, d, experts);
    forall e
      ensures multiset(r)[e] == if PassesBoth(selected, term, e) then multiset(experts)[e] else 0
    {
      if e !in r {
        assert multiset(r)[e] == 0;
      }
    }
    r
  }

  // ----- the domain options -----

  /** `data.map(e => e.domain)`. */
  function DomainsOf(data: seq<Expert>): (r: seq<string>)
    ensures |r| == |data| && forall i :: 0 <= i < |data| ==> r[i] == data[i].domain
  {
    seq(|data|, i requires 0 <= i < |data| => data[i].domain)
  }

  /** `.map(capitalizeWords)`. */
  function CapitalizeAll(ds: seq<string>): (r: seq<string>)
    ensures |r| == |ds| && forall i :: 0 <= i < |ds| ==> r[i] == CapitalizeWords(ds[i])
  {
    seq(|ds|, i requires 0 <= i < |ds| => CapitalizeWords(ds[i]))
  }

  /** `.filter(Boolean)` on domain strings: only the empty string is dropped. */
  predicate NonEmpty(d: string) {
    d != ""
  }

  /** A domain is listed iff some expert has it. */
  lemma DomainsOfMembers(data: seq<Expert>, d: string)
    ensures d in DomainsOf(data) <==> exists e :: e in data && e.domain == d
  {
    var ds := DomainsOf(data);
    if d in ds {
      var i :| 0 <= i < |ds| && ds[i] == d;
      assert data[i] in data;
    }
    if exists e :: e in data && e.domain == d {
      var e :| e in data && e.domain == d;
      var i :| 0 <= i < |data| && data[i] == e;
      assert ds[i] == d;
    }
  }

  /** A string is a capitalised domain iff it capitalises one of the domains. */
  lemma CapitalizeAllMembers(ds: seq<string>, o: string)
    ensures o in CapitalizeAll(ds) <==> exists d :: d in ds && o == CapitalizeWords(d)
  {
    var caps := CapitalizeAll(ds);
    if o in caps {
      var k :| 0 <= k < |caps| && caps[k] == o;
      assert ds[k] in ds;
    }
    if exists d :: d in ds && o == CapitalizeWords(d) {
      var d :| d in ds && o == CapitalizeWords(d);
      var k :| 0 <= k < |ds| && ds[k] == d;
      assert caps[k] == o;
    }
  }

  /**
   * The options of the domain filter panel: the non-empty domains,
   * de-duplicated, then capitalised, then sorted.
   */
  function DomainOptions(data: seq<Expert>): (r: seq<string>)
    ensures Sorted(r)
    ensures |r| <= |data|
  {
    var present := Filter(DomainsOf(data), NonEmpty);
    var distinct := Dedup(present);
    var r := Sort(CapitalizeAll(distinct));
    assert |r| == |distinct| by {
      assert |multiset(r)| == |multiset(CapitalizeAll(distinct))|;
    }
    r
  }

  /** Each option is the capitalisation of a non-empty catalog domain, and each such capitalisation is an option. */
  lemma DomainOptionsMembers(data: seq<Expert>, o: string)
    ensures o in DomainOptions(data) <==> exists e :: e in data && e.domain != "" && o == CapitalizeWords(e.domain)
  {
    var ds := DomainsOf(data);
    var present := Filter(ds, NonEmpty);
    var distinct := Dedup(present);
    var caps := CapitalizeAll(distinct);
    assert o in DomainOptions(data) <==> o in caps by {
      assert multiset(DomainOptions(data)) == multiset(caps);
      assert o in DomainOptions(data) <==> o in multiset(DomainOptions(data));
    }
    CapitalizeAllMembers(distinct, o);
    if o in caps {
      var d :| d in distinct && o == CapitalizeWords(d);
      assert d in present;
      DomainsOfMembers(data, d);
    }
    if exists e :: e in data && e.domain != "" && o == CapitalizeWords(e.domain) {
      var e :| e in data && e.domain != "" && o == CapitalizeWords(e.domain);
      DomainsOfMembers(data, e.domain);
      assert e.domain in present;
      assert e.domain in distinct;
    }
  }

  lemma CapitalizeAiAi()
    ensures CapitalizeWords("ai") == "Ai" && CapitalizeWords("Ai") == "Ai"
  {
    assert StartsWord("ai", 0) && !StartsWord("ai", 1);
    assert StartsWord("Ai", 0) && !StartsWord("Ai", 1);
  }

  lemma DedupAiAi()
    ensures Dedup(["ai", "Ai"]) == ["ai", "Ai"]
  {
    assert ["ai", "Ai"][..1] == ["ai"];
    assert ["ai"][..0] == [];
    assert Dedup(["ai"]) == ["ai"];
  }

  /**
   * De-duplication happens before capitalisation, so two domains that differ
   * only in the case of a word's first letter give the same option twice.
   */
  lemma DomainOptionsMayRepeat()
    ensures DomainOptions([Expert(Undefined, Undefined, "A", "ai", ""), Expert(Undefined, Undefined, "B", "Ai", "")]) == ["Ai", "Ai"]
  {
    var data := [Expert(Undefined, Undefined, "A", "ai", ""), Expert(Undefined, Undefined, "B", "Ai", "")];
    assert DomainsOf(data) == ["ai", "Ai"];
    PresentAiAi();
    DedupAiAi();
    CapitalizeAllAiAi();
    SortAiAi();
  }

  lemma CapitalizeAllAiAi()
    ensures CapitalizeAll(["ai", "Ai"]) == ["Ai", "Ai"]
  {
    CapitalizeAiAi();
  }

  lemma PresentAiAi()
    ensures Filter(["ai", "Ai"], NonEmpty) == ["ai", "Ai"]
  {
    assert ["ai", "Ai"][1..] == ["Ai"];
    assert ["Ai"][1..] == [];
  }

  lemma SortAiAi()
    ensures Sort(["Ai", "Ai"]) == ["Ai", "Ai"]
  {
    LexLeRefl("Ai");
    assert Sorted(["Ai", "Ai"]);
    SortedPermutationUnique(Sort(["Ai", "Ai"]), ["Ai", "Ai"]);
  }

  // ----- the domain selection -----

  /**
   * `toggleDomain(d)` on the selection: remove every copy of `d` when it is
   * selected, append it when it is not.
   */
  function Toggled(selected: seq<string>, d: string): (r: seq<string>)
    ensures d in selected ==> d !in r && IsSubsequence(r, selected)
    ensures d !in selected ==> r == selected + [d]
    ensures forall x :: x != d ==> (x in r <==> x in selected)
  {
    if d in selected then RemoveAll(selected, d) else selected + [d]
  }

  /** Toggling a domain twice restores which domains are selected. */
  lemma ToggledTwice(selected: seq<string>, d: string, x: string)
    ensures x in Toggled(Toggled(selected, d), d) <==> x in selected
  {
  }

  /** The state of the experts page that its handlers update. */
  class ExpertsPage {
    /** `user?.email`; "" when there is no user or no email. */
    const email: string
    var experts: seq<Expert>
    var domains: seq<string>
    var loading: bool
    var searchTerm: string
    var recentSearches: seq<string>
    var selectedDomains: seq<string>

    /** The recent-search list is never longer than three entries. */
    ghost predicate Valid()
      reads this
    {
      |recentSearches| <= 3
    }

    /** The filtered list the page renders. */
    function Filtered(): seq<Expert>
      reads this
    {
      FilterExperts(experts, selectedDomains, searchTerm)
    }

    constructor (email: string, initialQuery: string)
      ensures Valid()
      ensures this.email == email && searchTerm == initialQuery && loading
      ensures experts == [] && domains == [] && recentSearches == [] && selectedDomains == []
    {
      this.email := email;
      experts, domains, loading := [], [], true;
      searchTerm := initialQuery;
      recentSearches, selectedDomains := [], [];
    }

    /** The catalog effect: store the catalog and derive the domain options. */
    method LoadCatalog(reply: Payload<seq<Expert>>)
      modifies this`experts, this`domains, this`loading
      ensures !loading
      ensures reply.Parsed? ==> experts == reply.value && domains == DomainOptions(reply.value)
      ensures !reply.Parsed? ==> experts == old(experts) && domains == old(domains)
    {
      if reply.Parsed? {
        experts := reply.value;
        domains := DomainOptions(reply.value);
      }
      loading := false;
    }

    /**
     * The recent-search effect: with no email the list is emptied and nothing
     * is fetched; otherwise it becomes the first three entries the server
     * returns, or empty when the fetch fails.
     */
    method LoadRecentSearches(reply: Payload<seq<string>>) returns (fetched: bool)
      requires Valid()
      modifies this`recentSearches
      ensures Valid()
      ensures fetched <==> email != ""
      ensures recentSearches == if fetched && reply.Parsed? then Take(reply.value, 3) else []
    {
      fetched := email != "";
      if fetched && reply.Parsed? {
        recentSearches := Take(reply.value, 3);
      } else {
        recentSearches := [];
      }
    }

    /**
     * `saveRecent(q)`: with an email and a query that is not blank, send the
     * trimmed query and mirror the first three entries of the server's reply;
     * keep the list on a failed request.
     */
    method SaveRecent(q: string, reply: Payload<seq<string>>) returns (sent: Option<string>)
      requires Valid()
      modifies this`recentSearches
      ensures Valid()
      ensures sent.None? <==> email == "" || IsBlank(q)
      ensures sent.Some? ==> sent.value == Trim(q)
      ensures recentSearches == if sent.Some? && reply.Parsed? then Take(reply.value, 3) else old(recentSearches)
    {
      TrimEmptyIffBlank(q);
      if email == "" || Trim(q) == [] {
        return None;
      }
      sent := Some(Trim(q));
      if reply.Parsed? {
        recentSearches := Take(reply.value, 3);
      }
    }

    /** `onSubmit`: a blank search term does nothing; otherwise `saveRecent(searchTerm)`. */
    method Submit(reply: Payload<seq<string>>) returns (sent: Option<string>)
      requires Valid()
      modifies this`recentSearches
      ensures Valid()
      ensures IsBlank(searchTerm) ==> sent.None? && recentSearches == old(recentSearches)
      ensures sent.None? <==> email == "" || IsBlank(searchTerm)
      ensures sent.Some? ==> sent.value == Trim(searchTerm)
      ensures recentSearches == if sent.Some? && reply.Parsed? then Take(reply.value, 3) else old(recentSearches)
    {
      TrimEmptyIffBlank(searchTerm);
      if Trim(searchTerm) == [] {
        return None;
      }
      sent := SaveRecent(searchTerm, reply);
    }

    /** `onRecent(s)`: show `s` as the search term and save it again. */
    method SelectRecent(s: string, reply: Payload<seq<string>>) returns (sent: Option<string>)
      requires Valid()
      modifies this`searchTerm, this`recentSearches
      ensures Valid()
      ensures searchTerm == s
      ensures sent.None? <==> email == "" || IsBlank(s)
      ensures sent.Some? ==> sent.value == Trim(s)
      ensures recentSearches == if sent.Some? && reply.Parsed? then Take(reply.value, 3) else old(recentSearches)
    {
      searchTerm := s;
      sent := SaveRecent(s, reply);
    }

    /** The search box's change handler. */
    method EditSearch(term: string)
      modifies this`searchTerm
      ensures searchTerm == term
    {
      searchTerm := term;
    }

    /** `clearSearch`. */
    method ClearSearch()
      modifies this`searchTerm
      ensures searchTerm == ""
    {
      searchTerm := "";
    }

    /** `toggleDomain(d)`. */
    method ToggleDomain(d: string)
      modifies this`selectedDomains
      ensures selectedDomains == Toggled(old(selectedDomains), d)
    {
      selectedDomains := Toggled(selectedDomains, d);
    }

    /** The "Clear All" button of the filter panel. */
    method ClearDomains()
      modifies this`selectedDomains
      ensures selectedDomains == []
      ensures Filtered() == TextStage(experts, searchTerm)
    {
      selectedDomains := [];
    }
  }
}
