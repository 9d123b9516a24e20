/**
 * The saved-experts dashboard: loading the saved list, and removing an entry
 * with a single in-progress slot and a grace delay before the card goes.
 */
module Dashboard {
  import opened Common
  import Seqs
  import ExpertDetail

  /** How the lookup of one saved id ends: ok with its record, not ok (null), or thrown. */
  datatype Lookup = Found(expert: Expert) | NotFound | Thrown

  /**
   * How a removal request ends. Removed: `res.ok`. Refused: not ok, with the
   * body's `message` (None when absent). Thrown: the request or its body threw.
   */
  datatype RemoveReply = Removed | Refused(message: Option<string>) | Thrown

  /** The body `{ email, expertId }` posted to the removal endpoint. */
  datatype RemoveRequest = RemoveRequest(email: Option<string>, expertId: Id)

  const RefusedAlert: string := "Failed to remove expert."
  const ThrownAlert: string := "Could not remove expert. Please try again later."

  // ----- the user's email -----

  /** The page's email as written: `email` from the local store. */
  function EmailAsWritten(local: map<string, string>): Option<string> {
    ExpertDetail.StoredEmail(local)
  }

  /**
   * Login writes the email to the session store only, so after a login on a
   * browser whose local store has no `email` the page sees none and never
   * asks for the saved list.
   */
  lemma LoginEmailNotSeenAsWritten(local: map<string, string>, session: map<string, string>, email: string)
    requires "email" !in local && email != ""
    ensures ExpertDetail.StoredEmail(session["email" := email]) == Some(email)
    ensures !HasEmail(EmailAsWritten(local))
  {
  }

  /** The email the page evidently intends: the one login stored in the session. */
  function SessionEmail(session: map<string, string>): (email: Option<string>)
    ensures "email" in session ==> email == Some(session["email"])
    ensures "email" !in session ==> email == None
  {
    ExpertDetail.StoredEmail(session)
  }

  /** With that email, a login with a non-empty email lets the page fetch. */
  lemma LoginEmailSeen(session: map<string, string>, email: string)
    requires email != ""
    ensures HasEmail(SessionEmail(session["email" := email]))
  {
  }

  /** `userEmail` is truthy. */
  predicate HasEmail(email: Option<string>) {
    email.Some? && email.value != ""
  }

  // ----- loading -----

  /**
   * `Promise.all` over the saved ids followed by `filter(Boolean)`: None when
   * any lookup throws, otherwise the found records in saved-id order.
   */
  function Lookups(ids: seq<string>, lookup: string -> Lookup): (r: Option<seq<Expert>>)
    ensures r.Some? ==> |r.value| <= |ids|
  {
    if ids == [] then Some([])
    else
      var rest := Lookups(ids[1..], lookup);
      match lookup(ids[0])
      case Thrown => None
      case NotFound => rest
      case Found(e) => if rest.Some? then Some([e] + rest.value) else None
  }

  /** The lookups fail iff one of them throws; otherwise they hold exactly the records found. */
  lemma {:induction false} LookupsSpec(ids: seq<string>, lookup: string -> Lookup)
    ensures Lookups(ids, lookup).None? <==> exists i :: 0 <= i < |ids| && lookup(ids[i]).Thrown?
    ensures Lookups(ids, lookup).Some? ==>
      forall e :: e in Lookups(ids, lookup).value <==> exists i :: 0 <= i < |ids| && lookup(ids[i]) == Found(e)
  {
    if ids != [] {
      var tail := ids[1..];
      LookupsSpec(tail, lookup);
      assert forall i :: 1 <= i < |ids| ==> ids[i] == tail[i - 1];
      assert forall i :: 0 <= i < |tail| ==> tail[i] == ids[i + 1];
    }
  }

  /** The lookups of two runs of ids, one after the other, concatenate in that order. */
  lemma {:induction false} LookupsAppend(a: seq<string>, b: seq<string>, lookup: string -> Lookup)
    requires Lookups(a, lookup).Some? && Lookups(b, lookup).Some?
    ensures Lookups(a + b, lookup) == Some(Lookups(a, lookup).value + Lookups(b, lookup).value)
  {
    var rb := Lookups(b, lookup).value;
    if a == [] {
      assert a + b == b;
      assert Lookups(a, lookup).value + rb == rb;
    } else {
      var ab := a + b;
      assert ab[0] == a[0] && ab[1..] == a[1..] + b;
      var tail := Lookups(a[1..], lookup);
      assert tail.Some?;
      LookupsAppend(a[1..], b, lookup);
      var joined := Lookups(a[1..] + b, lookup);
      assert joined == Some(tail.value + rb);
      match lookup(a[0])
      case NotFound =>
        assert Lookups(a, lookup) == tail;
        assert Lookups(ab, lookup) == joined;
      case Found(e) =>
        assert Lookups(a, lookup) == Some([e] + tail.value);
        assert Lookups(ab, lookup) == Some([e] + joined.value);
        assert [e] + (tail.value + rb) == ([e] + tail.value) + rb;
    }
  }

  /** When every lookup succeeds, the list is the records in exactly the saved-id order. */
  lemma {:induction false} LookupsAllFound(ids: seq<string>, lookup: string -> Lookup)
    requires forall i :: 0 <= i < |ids| ==> lookup(ids[i]).Found?
    ensures Lookups(ids, lookup).Some?
    ensures |Lookups(ids, lookup).value| == |ids|
    ensures forall i :: 0 <= i < |ids| ==> Lookups(ids, lookup).value[i] == lookup(ids[i]).expert
  {
    if ids != [] {
      var tail := ids[1..];
      assert forall i :: 0 <= i < |tail| ==> tail[i] == ids[i + 1];
      LookupsAllFound(tail, lookup);
      var e := lookup(ids[0]).expert;
      var rest := Lookups(tail, lookup).value;
      assert Lookups(ids, lookup) == Some([e] + rest);
    }
  }

  /**
   * The list the load effect sets: the looked-up records when the saved-id
   * reply is an ok array and no lookup throws, empty otherwise.
   */
  function LoadedList(saved: Payload<seq<string>>, lookup: string -> Lookup): (list: seq<Expert>)
    ensures saved.Parsed? && Lookups(saved.value, lookup).Some? ==> list == Lookups(saved.value, lookup).value
    ensures !saved.Parsed? ==> list == []
    ensures saved.Parsed? && (exists i :: 0 <= i < |saved.value| && lookup(saved.value[i]).Thrown?) ==> list == []
  {
    if saved.Parsed? then
      LookupsSpec(saved.value, lookup);
      match Lookups(saved.value, lookup)
      case Some(list) => list
      case None => []
    else []
  }

  // ----- removal -----

  /** `prev.filter(e => e._id !== expertId)`. */
  function WithoutId(list: seq<Expert>, id: Id): (r: seq<Expert>)
    ensures Seqs.IsSubsequence(r, list)
    ensures forall e :: e in r <==> e in list && e.uid != id
    ensures forall e: Expert :: e.uid != id ==> multiset(r)[e] == multiset(list)[e]
  {
    Seqs.Filter(list, (e: Expert) => e.uid != id)
  }

  /** Removing the same id twice removes nothing more. */
  lemma WithoutIdIdempotent(list: seq<Expert>, id: Id)
    ensures WithoutId(WithoutId(list, id), id) == WithoutId(list, id)
  {
    Seqs.FilterKeepsAll(WithoutId(list, id), (e: Expert) => e.uid != id);
  }

  /**
   * The dashboard's state: its list, the `removingId` slot (`null` when no
   * removal is in progress), the grace timers still to fire, and the last
   * alert.
   */
  class DashboardPage {
    const userEmail: Option<string>
    var experts: seq<Expert>
    var loading: bool
    var removingId: Id
    var pendingRemovals: seq<Id>
    var alert: Option<string>

    /** The page as first rendered, reading its email from the session store. */
    constructor (session: map<string, string>)
      ensures userEmail == SessionEmail(session)
      ensures experts == [] && loading && removingId == Null && pendingRemovals == [] && alert == None
    {
      userEmail := SessionEmail(session);
      experts := [];
      loading := true;
      removingId := Null;
      pendingRemovals := [];
      alert := None;
    }

    /**
     * The load effect. Without an email nothing is fetched and the list is
     * left as it is; otherwise the list becomes the loaded one.
     */
    method Load(saved: Payload<seq<string>>, lookup: string -> Lookup) returns (fetched: bool)
      modifies this
      ensures fetched == HasEmail(userEmail)
      ensures !fetched ==> experts == old(experts)
      ensures fetched ==> experts == LoadedList(saved, lookup)
      ensures !loading
      ensures removingId == old(removingId) && pendingRemovals == old(pendingRemovals) && alert == old(alert)
    {
      fetched := HasEmail(userEmail);
      if fetched {
        experts := LoadedList(saved, lookup);
      }
      loading := false;
    }

    /**
     * `disabled={removingId === expert._id}`. With the slot at `null`, a card
     * whose `_id` is `null` is disabled too.
     */
    predicate IsDisabled(e: Expert)
      reads this
      ensures IsDisabled(e) <==> e.uid == removingId
    {
      removingId == e.uid
    }

    /** A click on a card's delete button: the slot takes its id and the request goes out. */
    method BeginRemove(id: Id) returns (request: RemoveRequest)
      modifies this
      ensures removingId == id
      ensures forall e: Expert :: IsDisabled(e) <==> e.uid == id
      ensures request == RemoveRequest(userEmail, id)
      ensures experts == old(experts) && pendingRemovals == old(pendingRemovals) && alert == old(alert)
      ensures loading == old(loading)
    {
      removingId := id;
      request := RemoveRequest(userEmail, id);
    }

    /**
     * The reply to the removal of `id`. On success the card is dropped later,
     * when its grace timer fires; on failure the list is kept, the slot is
     * cleared and an alert is shown.
     */
    method FinishRemove(id: Id, reply: RemoveReply)
      modifies this
      ensures experts == old(experts) && loading == old(loading)
      ensures reply.Removed? ==>
        pendingRemovals == old(pendingRemovals) + [id] && removingId == old(removingId) && alert == old(alert)
      ensures !reply.Removed? ==> pendingRemovals == old(pendingRemovals) && removingId == Null
      ensures !reply.Removed? ==> forall e: Expert :: IsDisabled(e) <==> e.uid == Null
      ensures reply.Refused? ==>
        alert == Some(if reply.message.Some? && reply.message.value != "" then reply.message.value else RefusedAlert)
      ensures reply.Thrown? ==> alert == Some(ThrownAlert)
    {
      match reply
      case Removed =>
        pendingRemovals := pendingRemovals + [id];
      case Refused(message) =>
        removingId := Null;
        alert := Some(if message.Some? && message.value != "" then message.value else RefusedAlert);
      case Thrown =>
        removingId := Null;
        alert := Some(ThrownAlert);
    }

    /** The oldest pending grace timer fires: every card with that `_id` goes and the slot is cleared. */
    method GraceElapsed()
      requires pendingRemovals != []
      modifies this
      ensures experts == WithoutId(old(experts), old(pendingRemovals[0]))
      ensures pendingRemovals == old(pendingRemovals[1..])
      ensures removingId == Null && forall e: Expert :: IsDisabled(e) <==> e.uid == Null
      ensures alert == old(alert) && loading == old(loading)
    {
      experts := WithoutId(experts, pendingRemovals[0]);
      pendingRemovals := pendingRemovals[1..];
      removingId := Null;
    }
  }
}
