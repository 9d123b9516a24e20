/**
 * The analytics page: the number of experts and the number of distinct
 * domains they cover, counted with a set filled by a loop.
 */
module Analytics {
  import opened Common
  import opened Text

  /**
   * The lower-cased domains of the experts that have one. Defined over the
   * list's prefixes, in the order the loop visits them.
   */
  function DomainSet(data: seq<Expert>): (r: set<string>)
    ensures forall d :: d in r <==> exists e :: e in data && e.domain != "" && Lower(e.domain) == d
  {
    if data == [] then {}
    else
      var init := data[..|data| - 1];
      var last := data[|data| - 1];
      assert data == init + [last];
      assert forall e :: e in data <==> e in init || e == last;
      DomainSet(init) + (if last.domain != "" then {Lower(last.domain)} else {})
  }

  /** Every expert adds at most one domain, so no more domains are covered than there are experts. */
  lemma {:induction false} DomainsCoveredBound(data: seq<Expert>)
    ensures |DomainSet(data)| <= |data|
  {
    if data != [] {
      DomainsCoveredBound(data[..|data| - 1]);
    }
  }

  /** Domains that differ only in case count once. */
  lemma CaseVariantsCountOnce(e1: Expert, e2: Expert)
    requires e1.domain != "" && Lower(e1.domain) == Lower(e2.domain)
    ensures DomainSet([e1, e2]) == {Lower(e1.domain)}
  {
    assert [e1, e2][..1] == [e1];
  }

  /**
   * The `forEach` loop and the stats it sets: the list's length, and the size
   * of the set of lower-cased non-empty domains.
   */
  method ComputeStats(data: seq<Expert>) returns (totalExperts: nat, domainsCovered: nat)
    ensures totalExperts == |data|
    ensures domainsCovered == |DomainSet(data)|
    ensures domainsCovered <= totalExperts
  {
    var domains: set<string> := {};
    var i := 0;
    while i < |data|
      invariant 0 <= i <= |data|
      invariant domains == DomainSet(data[..i])
    {
      assert data[..i + 1][..i] == data[..i];
      if data[i].domain != "" {
        domains := domains + {Lower(data[i].domain)};
      }
      i := i + 1;
    }
    assert data[..|data|] == data;
    DomainsCoveredBound(data);
    totalExperts := |data|;
    domainsCovered := |domains|;
  }

  /** The analytics page: its two counts and whether it is still loading. */
  class AnalyticsPage {
    var totalExperts: nat
    var domainsCovered: nat
    var loading: bool

    constructor ()
      ensures totalExperts == 0 && domainsCovered == 0 && loading
    {
      totalExperts := 0;
      domainsCovered := 0;
      loading := true;
    }

    /** The catalog reply arrived: an array sets the stats; anything else leaves them and only ends the loading. */
    method Load(reply: Payload<seq<Expert>>)
      modifies this
      ensures !loading
      ensures reply.Parsed? ==> totalExperts == |reply.value| && domainsCovered == |DomainSet(reply.value)|
      ensures !reply.Parsed? ==> totalExperts == old(totalExperts) && domainsCovered == old(domainsCovered)
    {
      if reply.Parsed? {
        totalExperts, domainsCovered := ComputeStats(reply.value);
      }
      loading := false;
    }
  }
}
