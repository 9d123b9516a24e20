/**
 * The expert detail page: whether the shown expert is bookmarked, the
 * bookmark toggle with its notification, and the Wikipedia title taken from
 * the expert's link.
 */
module ExpertDetail {
  import opened Common
  import Seqs
  import Auth

  datatype NoticeKind = Success | Error

  /** The two endpoints `handleBookmark` can post to. */
  datatype Endpoint = SaveExpert | RemoveSavedExpert

  /** The body `{ email, expertId }` posted to an endpoint. */
  datatype BookmarkRequest = BookmarkRequest(endpoint: Endpoint, email: Option<string>, expertId: Id)

  /**
   * How a bookmark request ends. Acknowledged: `res.ok`. Refused: a reply
   * that is not ok, with the `message` field of its body (None when absent).
   * NetworkFailure: the request or the decoding of its body threw.
   */
  datatype BookmarkReply = Acknowledged | Refused(message: Option<string>) | NetworkFailure

  /**
   * What the toggle changes: the flag, the notification (None hides it), its
   * kind, and whether the redirect to the login page has been scheduled.
   */
  datatype Panel = Panel(isSaved: bool, notice: Option<string>, kind: NoticeKind, redirect: bool)

  /** A click: the panel it leaves and the request it sends, if any. */
  datatype Click = Click(panel: Panel, request: Option<BookmarkRequest>)

  const LoginPrompt: string := "Please log in to save experts."
  const SavedNotice: string := "Expert saved successfully."
  const RemovedNotice: string := "Expert removed from saved."
  const NetworkNotice: string := "Network error. Please try again."

  // ----- login state -----

  /** The page's login test as written: a non-empty `token` in the local store. */
  predicate LoggedInAsWritten(local: map<string, string>) {
    "token" in local && local["token"] != ""
  }

  /**
   * Login writes its token to the session store under `authToken`; the local
   * store keeps whatever it held. So a user who has just logged in, on a
   * browser whose local store has no `token`, is logged out for this page.
   */
  lemma LoginNotSeenAsWritten(local: map<string, string>, session: map<string, string>, token: string)
    requires "token" !in local && token != ""
    ensures Auth.TokenPresent(session[Auth.TokenKey := token])
    ensures !LoggedInAsWritten(local)
  {
  }

  /** The login test the page evidently intends: the session token of the login helpers. */
  predicate LoggedIn(session: map<string, string>) {
    Auth.TokenPresent(session)
  }

  /** With that test, logging in with a non-empty token logs the page in, and logging out logs it out. */
  lemma LoginSeen(session: map<string, string>, token: string)
    ensures LoggedIn(session[Auth.TokenKey := token]) <==> token != ""
    ensures !LoggedIn(session - {Auth.TokenKey})
  {
  }

  /** `getItem('email')`: None stands for `null`. */
  function StoredEmail(store: map<string, string>): (email: Option<string>)
    ensures email.Some? <==> "email" in store
    ensures email.Some? ==> email.value == store["email"]
  {
    if "email" in store then Some(store["email"]) else None
  }

  // ----- the initial flag -----

  /**
   * The flag after the page loads: the saved list is fetched only for a
   * logged-in user with an email, and the flag is `savedExperts.includes(_id)`,
   * false when the fetch throws or `savedExperts` is missing.
   */
  function InitialSaved(loggedIn: bool, email: Option<string>, uid: Id, saved: Payload<seq<string>>): (isSaved: bool)
    ensures isSaved <==>
      loggedIn && email.Some? && email.value != "" && saved.Parsed? && uid.Str? && uid.value in saved.value
  {
    if loggedIn && email.Some? && email.value != "" && saved.Parsed? && uid.Str? then
      Seqs.Contains(saved.value, uid.value)
    else
      false
  }

  /** Whether the page asks the server for the saved list at all. */
  predicate FetchesSaved(loggedIn: bool, email: Option<string>)
    ensures FetchesSaved(loggedIn, email) <==> loggedIn && email.Some? && |email.value| > 0
  {
    loggedIn && email.Some? && email.value != ""
  }

  // ----- the Wikipedia title -----

  /** `url.split('/').pop()`: the text after the last '/', all of `url` when it has none. */
  function WikiTitle(url: string): (title: string)
    ensures '/' !in title
    ensures |title| <= |url| && title == url[|url| - |title|..]
    ensures |title| == |url| || url[|url| - |title| - 1] == '/'
  {
    if url == [] || url[|url| - 1] == '/' then []
    else
      var rest := WikiTitle(url[..|url| - 1]);
      assert url[..|url| - 1][|url| - 1 - |rest|..] + [url[|url| - 1]] == url[|url| - 1 - |rest|..];
      rest + [url[|url| - 1]]
  }

  /** The title is the only suffix that has no '/' and starts the string or follows a '/'. */
  lemma WikiTitleUnique(url: string, t: string)
    requires '/' !in t
    requires |t| <= |url| && t == url[|url| - |t|..]
    requires |t| == |url| || url[|url| - |t| - 1] == '/'
    ensures t == WikiTitle(url)
  {
  }

  /** The title is looked up only when the record has a non-empty `wikipedia_url`. */
  function WikiLookup(url: Option<string>): (title: Option<string>)
    ensures title.Some? <==> url.Some? && url.value != ""
    ensures title.Some? ==> title.value == WikiTitle(url.value)
  {
    if url.Some? && url.value != "" then Some(WikiTitle(url.value)) else None
  }

  // ----- the bookmark toggle -----

  /** The endpoint for the flag the click sees: remove when saved, save otherwise. */
  function EndpointFor(isSaved: bool): (e: Endpoint)
    ensures e == RemoveSavedExpert <==> isSaved
  {
    if isSaved then RemoveSavedExpert else SaveExpert
  }

  /**
   * The synchronous part of `handleBookmark`: a logged-out click shows the
   * login prompt and schedules the redirect; any other click posts to the
   * endpoint the current flag selects and changes nothing yet.
   */
  function Start(p: Panel, loggedIn: bool, email: Option<string>, expertId: Id): (c: Click)
    ensures !loggedIn ==> c.request.None? && c.panel == Panel(p.isSaved, Some(LoginPrompt), Error, true)
    ensures loggedIn ==> c.panel == p && c.request.Some?
    ensures c.request.Some? ==> c.request.value == BookmarkRequest(EndpointFor(p.isSaved), email, expertId)
  {
    if !loggedIn then Click(p.(notice := Some(LoginPrompt), kind := Error, redirect := true), None)
    else Click(p, Some(BookmarkRequest(EndpointFor(p.isSaved), email, expertId)))
  }

  /**
   * The rest of `handleBookmark`, once the reply for a click that saw the flag
   * `captured` arrives: only an acknowledgement changes the flag, to the
   * opposite of what the click saw.
   */
  function Resolve(p: Panel, captured: bool, reply: BookmarkReply): (r: Panel)
    ensures r.redirect == p.redirect
    ensures reply.Acknowledged? ==> r.isSaved == !captured
    ensures reply.Acknowledged? ==>
      r.notice == Some(if captured then RemovedNotice else SavedNotice) && (r.kind == Error <==> captured)
    ensures !reply.Acknowledged? ==> r.isSaved == p.isSaved && r.kind == Error
    ensures reply.Refused? ==> r.notice == reply.message
    ensures reply.NetworkFailure? ==> r.notice == Some(NetworkNotice)
  {
    match reply
    case Acknowledged =>
      Panel(!captured, Some(if captured then RemovedNotice else SavedNotice), if captured then Error else Success, p.redirect)
    case Refused(message) => p.(notice := message, kind := Error)
    case NetworkFailure => p.(notice := Some(NetworkNotice), kind := Error)
  }

  /** One click answered before the next: start, then resolve with the flag the click saw. */
  function Toggle(p: Panel, loggedIn: bool, email: Option<string>, expertId: Id, reply: BookmarkReply): (r: Panel)
    ensures !loggedIn ==> r == Panel(p.isSaved, Some(LoginPrompt), Error, true)
    ensures loggedIn ==> r.isSaved == (if reply.Acknowledged? then !p.isSaved else p.isSaved)
    ensures loggedIn ==> r.redirect == p.redirect
  {
    var c := Start(p, loggedIn, email, expertId);
    if c.request.Some? then Resolve(c.panel, p.isSaved, reply) else c.panel
  }

  /** A save acknowledged and then a removal acknowledged bring the flag back to where it was. */
  lemma SaveThenRemoveRestores(p: Panel, email: Option<string>, expertId: Id)
    ensures var q := Toggle(p, true, email, expertId, Acknowledged);
      q.isSaved == !p.isSaved &&
      Toggle(q, true, email, expertId, Acknowledged).isSaved == p.isSaved
    ensures !p.isSaved ==>
      Start(p, true, email, expertId).request.value.endpoint == SaveExpert &&
      Start(Toggle(p, true, email, expertId, Acknowledged), true, email, expertId).request.value.endpoint == RemoveSavedExpert
  {
  }

  /**
   * There is no guard against a second click while the first is in flight:
   * both clicks see the same flag, post to the same endpoint, and once both
   * are acknowledged the flag is flipped once, not restored.
   */
  lemma OverlappingClicksFlipOnce(p: Panel, email: Option<string>, expertId: Id)
    ensures var first := Start(p, true, email, expertId);
      var second := Start(first.panel, true, email, expertId);
      first.request == second.request &&
      Resolve(Resolve(second.panel, p.isSaved, Acknowledged), p.isSaved, Acknowledged).isSaved == !p.isSaved
  {
  }

  /** A reply that is not an acknowledgement never changes the flag, whatever the click saw. */
  lemma FailureKeepsFlag(p: Panel, loggedIn: bool, email: Option<string>, expertId: Id, reply: BookmarkReply)
    requires !reply.Acknowledged?
    ensures Toggle(p, loggedIn, email, expertId, reply).isSaved == p.isSaved
  {
  }

  // ----- the page -----

  /** The state of the detail page that the toggle and the loading effect update. */
  class ExpertDetailPage {
    const loggedIn: bool
    const userEmail: Option<string>
    var expert: Option<Expert>
    var wikiTitle: Option<string>
    var isSaved: bool
    var notification: Option<string>
    var notificationKind: NoticeKind
    var redirectScheduled: bool

    function State(): Panel
      reads this
    {
      Panel(isSaved, notification, notificationKind, redirectScheduled)
    }

    /** The page as first rendered, reading its login state and email from the session store. */
    constructor (session: map<string, string>)
      ensures loggedIn == LoggedIn(session) && userEmail == StoredEmail(session)
      ensures expert == None && wikiTitle == None
      ensures State() == Panel(false, None, Success, false)
    {
      loggedIn := LoggedIn(session);
      userEmail := StoredEmail(session);
      expert := None;
      wikiTitle := None;
      isSaved := false;
      notification := None;
      notificationKind := Success;
      redirectScheduled := false;
    }

    /**
     * The expert record arrived: the saved list is asked for only when the
     * user is logged in with an email, the flag is derived from it, and the
     * Wikipedia title is taken from the record's link.
     */
    method Loaded(e: Expert, wikipediaUrl: Option<string>, saved: Payload<seq<string>>) returns (fetchedSaved: bool)
      modifies this
      ensures fetchedSaved == FetchesSaved(loggedIn, userEmail)
      ensures expert == Some(e)
      ensures isSaved == InitialSaved(loggedIn, userEmail, e.uid, saved)
      ensures wikiTitle == WikiLookup(wikipediaUrl)
      ensures notification == old(notification) && notificationKind == old(notificationKind)
      ensures redirectScheduled == old(redirectScheduled)
    {
      expert := Some(e);
      fetchedSaved := FetchesSaved(loggedIn, userEmail);
      isSaved := InitialSaved(loggedIn, userEmail, e.uid, saved);
      wikiTitle := WikiLookup(wikipediaUrl);
    }

    /**
     * A click on the bookmark button, which exists once the record is shown.
     * `captured` is the flag the click saw, which its reply is resolved with.
     */
    method Bookmark() returns (request: Option<BookmarkRequest>, captured: bool)
      requires expert.Some?
      modifies this
      ensures captured == old(isSaved)
      ensures var c := Start(old(State()), loggedIn, userEmail, old(expert.value.uid));
        State() == c.panel && request == c.request
      ensures expert == old(expert) && wikiTitle == old(wikiTitle)
    {
      captured := isSaved;
      if !loggedIn {
        notification := Some(LoginPrompt);
        notificationKind := Error;
        redirectScheduled := true;
        request := None;
      } else {
        request := Some(BookmarkRequest(EndpointFor(isSaved), userEmail, expert.value.uid));
      }
    }

    /** The reply to a click that saw `captured` arrived. */
    method BookmarkSettled(captured: bool, reply: BookmarkReply)
      modifies this
      ensures State() == Resolve(old(State()), captured, reply)
      ensures expert == old(expert) && wikiTitle == old(wikiTitle)
    {
      match reply
      case Acknowledged =>
        isSaved := !captured;
        notification := Some(if captured then RemovedNotice else SavedNotice);
        notificationKind := if captured then Error else Success;
      case Refused(message) =>
        notification := message;
        notificationKind := Error;
      case NetworkFailure =>
        notification := Some(NetworkNotice);
        notificationKind := Error;
    }

    /** The notification's close button. */
    method CloseNotification()
      modifies this
      ensures State() == old(State()).(notice := None)
      ensures expert == old(expert) && wikiTitle == old(wikiTitle)
    {
      notification := None;
    }
  }
}
