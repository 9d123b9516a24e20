# Expert directory client: a verified model

This project models the logic inside the page components of the expert
directory web client. That client is a React application: users browse a
catalog of experts, search it, get recommendations, bookmark experts, manage
the experts they saved, and edit a profile. Most of the client is
presentation. The parts modelled here are the ones that compute something or
keep state:

- **Experts page**:
  - the two-stage search filter;
  - the sorted domain options;
  - `capitalizeWords`;
  - the domain selection toggle;
  - the recent-search list mirrored from the server.
- **Home page**:
  - the recommendation feed, made of a personalised prefix plus a random backfill;
  - the featured expert;
  - the trending list, an in-place Fisher–Yates shuffle cut to ten;
  - the three-slot carousel and its tick;
  - the search-box guard.
- **Expert detail page**:
  - the initial bookmark flag;
  - the Wikipedia title;
  - the bookmark toggle and its notification.
- **Dashboard**:
  - loading of the saved list;
  - removal, with a single `removingId` slot and a grace delay.
- **Profile page**:
  - link normalisation;
  - the routing of each edited line to its save handler;
  - the skill list;
  - the contact-visibility flag, all mirrored to the local store.
- **Contact form**:
  - validation, including the email pattern;
  - the submit and its simulated completion.
- **Analytics page**: the expert count and the distinct-domain count.
- **Session helpers** (`login`, `logout`, `isLoggedIn`): operations over the session key/value store.

Every server reply is a parameter of type `Payload<T>`, with three cases:

- `Failed`: the request or the JSON decoding threw.
- `Malformed`: the field the page reads is missing or is not an array.
- `Parsed(value)`: the decoded value.

Replies with more cases get their own datatypes:

- `BookmarkReply` (expert detail page).
- `RemoveReply` and `Lookup` (dashboard).

Randomness is a parameter as well:

- **Backfill order.** `sort(() => Math.random() - 0.5)` is any function that permutes its argument (`Home.IsShuffle`).
- **Fisher–Yates draw.** `Math.floor(Math.random() * (i + 1))` is any function `draw` with `draw(i) <= i`.

Timers become explicit methods that the environment calls:

- `Home.HomePage.TickCarousel`;
- `Dashboard.DashboardPage.GraceElapsed`;
- `Contact.ContactForm.SubmitCompleted`;
- `ExpertDetail.ExpertDetailPage.CloseNotification`.

The browser's stores are `map<string, string>`.

Modules follow the source files: `Experts`, `Home`, `ExpertDetail`, `Dashboard`,
`Profile`, `Contact`, `Analytics` and `Auth`. Three helper modules hold the
JavaScript built-ins the pages use:

- `Common`: the expert record, the reply shape, and `_id ?? id`.
- `Text`: `trim`, `\s`, ASCII case mapping, and string `includes`.
- `Seqs`: `filter`, `slice`, array `includes`, `new Set`, and the default `sort`.

Pure derivations are functions with lemmas. State that a page changes step by
step is a class:

- fields for the page's `useState` variables;
- methods for the handlers and effects, each stating the new state in terms of the old one and the functions above.

The one in-place algorithm is the trending shuffle, an `array` method proved
equal to its sequence specification.

## Behaviour as coded

In these places the code does something a reader might not expect. The
model keeps the code's behaviour:

- **No in-flight guard.** `handleBookmark` has none. Two clicks before the first reply both see the same flag, post to the same endpoint, and flip the flag once (`ExpertDetail.OverlappingClicksFlipOnce`).
- **Carousel index not reset.** The index is not reset when the trending list is reloaded (`Home.HomePage.LoadTrending` leaves `carouselIndex` alone).
- **Recent searches clipped client-side.** The client clips the server's recent-search list to three entries itself.
- **Biased backfill shuffle.** The backfill is ordered by `sort` with a random comparator, not an unbiased shuffle. Only the fact that it permutes is used.
- **Sequential recommendation requests.** The three requests run one after another; any throw ends the chain.
- **The feed may repeat an expert.** Nothing de-duplicates the prefix the server sends, so a repeated expert stays repeated. Two catalog copies of one expert can both be backfilled, because the filter only excludes ids shown in the prefix (`Home.Eligible` keeps every copy).
- **`null` and `undefined` ids differ.** `??` treats both alike, but `===` and `Set` do not. A prefix expert with no `_id` or `id` puts `undefined` among the shown ids, and a catalog expert whose ids are both `null` can still be backfilled. On the dashboard the slot starts at, and returns to, `null`, so a card whose `_id` is `null` has its delete button disabled whenever no removal is in progress (`Dashboard.DashboardPage.IsDisabled`).

## Model

| member | source | states |
|---|---|---|
| Experts.CapitalizeWords | src/pages/Experts.jsx:42-45 | "" stays ""; the length is kept; each character is upper-cased exactly when it is a word character at the start of the string or after a non-word character, and is kept otherwise |
| Experts.CapitalizeFrom | src/pages/Experts.jsx:44 | the left-to-right replacement from index k yields, at each later index, the character the `\b\w` rule gives there |
| Experts.CapitalizeWordsIdempotent | src/pages/Experts.jsx:42-45 | capitalising twice equals capitalising once |
| Experts.DomainStage | src/pages/Experts.jsx:99-102 | no selection keeps the list; otherwise exactly the experts whose capitalised domain is selected survive, every copy of each, order kept |
| Experts.TextStage | src/pages/Experts.jsx:103-110 | a blank term keeps the list; otherwise exactly the experts whose lower-cased name, domain or location includes the lower-cased untrimmed term survive, order kept |
| Experts.FilterExperts | src/pages/Experts.jsx:98-112 | the shown list is a subsequence of the catalog and of the domain stage, and holds exactly the experts passing both stages, each with all its catalog copies |
| Experts.DomainOptions | src/pages/Experts.jsx:83-85 | the options are sorted and no more numerous than the catalog |
| Experts.DomainOptionsMembers | src/pages/Experts.jsx:83-85 | a string is an option iff it is the capitalisation of some non-empty catalog domain |
| Experts.DomainOptionsMayRepeat | src/pages/Experts.jsx:83-84 | domains "ai" and "Ai" give the options ["Ai", "Ai"]: options need not be unique, because de-duplication precedes capitalisation |
| Experts.Toggled | src/pages/Experts.jsx:142-146 | a selected domain loses every copy and the rest keeps its order; an unselected one is appended; other domains' membership is unchanged |
| Experts.ToggledTwice | src/pages/Experts.jsx:142-146 | toggling twice restores membership |
| Experts.ExpertsPage.constructor | src/pages/Experts.jsx:51-59 | the page starts loading, with the URL query as search term and empty lists |
| Experts.ExpertsPage.LoadCatalog | src/pages/Experts.jsx:76-88 | an array reply becomes the catalog and its domain options; anything else keeps both; loading ends |
| Experts.ExpertsPage.LoadRecentSearches | src/pages/Experts.jsx:90-96 | no email means no fetch and an empty list; otherwise the first three entries of the reply, or empty on failure; at most three entries |
| Experts.ExpertsPage.SaveRecent | src/pages/Experts.jsx:114-124 | no request without an email or with a blank query; otherwise the trimmed query is sent and the list becomes the first three of the reply, unchanged on failure |
| Experts.ExpertsPage.Submit | src/pages/Experts.jsx:126-130 | a blank term does nothing; otherwise the term is saved as a recent search |
| Experts.ExpertsPage.SelectRecent | src/pages/Experts.jsx:137-140 | the clicked search becomes the term and is saved again |
| Experts.ExpertsPage.EditSearch | src/pages/Experts.jsx:189 | the term becomes the typed text |
| Experts.ExpertsPage.ClearSearch | src/pages/Experts.jsx:132-135 | the term becomes empty |
| Experts.ExpertsPage.ToggleDomain | src/pages/Experts.jsx:142-146 | the selection becomes its toggled form |
| Experts.ExpertsPage.ClearDomains | src/pages/Experts.jsx:215 | the selection is emptied and the shown list is the text stage alone |
| Text.Trim | src/pages/Experts.jsx:103 | `s.trim()` is a slice of `s` with only white space before and after it, and neither of its ends is white space |
| Text.TrimEmptyIffBlank | src/pages/Experts.jsx:103 | `s.trim()` is empty iff every character of `s` is white space |
| Text.Includes | src/pages/Experts.jsx:106-108 | `includes` holds iff the needle occurs at some index |
| Seqs.Filter | src/pages/Experts.jsx:101 | `filter` keeps a subsequence with every copy of each passing element and no other |
| Seqs.RemoveAll | src/pages/Profile.jsx:176 | removal drops every copy of the value, keeps a subsequence with every other element's copies, and leaves a list without the value as it is |
| Seqs.FilterKeepsAll | src/pages/Dashboard.jsx:54 | `filter` leaves a list whose every element passes as it is |
| Seqs.Dedup | src/pages/Experts.jsx:83 | `[...new Set(s)]` has no duplicates and the same members as `s` |
| Seqs.Sort | src/pages/Experts.jsx:84 | `sort` returns a sorted permutation |
| Seqs.SortedPermutationUnique | src/pages/Experts.jsx:84 | two sorted permutations of the same list are equal |
| Home.Seed | src/pages/Home.jsx:62 | the seed is the first recent search alone, or empty for an empty list |
| Home.SeedOf | src/pages/Home.jsx:61-62 | the seed is the first recent search when the reply holds a non-empty array, and empty otherwise |
| Home.Personalized | src/pages/Home.jsx:70 | the prefix is the first three experts of the reply in server order (all of a shorter reply), and empty for a non-array reply |
| Home.ShownIds | src/pages/Home.jsx:75 | the id set holds exactly the `_id ?? id` of the prefix's experts |
| Home.Eligible | src/pages/Home.jsx:76-77 | the eligible experts are a subsequence of the catalog holding every copy of each catalog expert whose `_id ?? id` is not shown, and no other |
| Home.Backfill | src/pages/Home.jsx:76-79 | exactly two eligible experts, or all of them when fewer are eligible; each catalog copy used at most once; none with an id in the shown set |
| Home.Recommend | src/pages/Home.jsx:51-87 | no email gives an empty feed and no request; a feed never exceeds five experts and at most three requests are made |
| Home.NoUserNoFeed | src/pages/Home.jsx:53-56 | without an email the feed is empty and nothing is fetched |
| Home.SeedIsLatestSearch | src/pages/Home.jsx:59-68 | the recent searches are fetched first, then the recommendations with the first recent search only, none for a non-array reply |
| Home.FeedWhenAllSucceed | src/pages/Home.jsx:57-81 | with no failure the feed is the prefix followed by the backfill, after exactly the three requests in order |
| Home.FeedLength | src/pages/Home.jsx:70-81 | with no failure the feed has three or fewer personalised experts, as the reply allows, plus two or fewer backfilled ones, as the eligible catalog allows; a reply of two with two or more eligible gives four |
| Home.PrefixThenBackfill | src/pages/Home.jsx:75-81 | such a feed starts with the prefix, adds at most two catalog experts, and none shares an id with a prefix expert |
| Home.FailureEmptiesFeed | src/pages/Home.jsx:82-84 | a throw at any step, including a non-array catalog, empties the feed |
| Home.Featured | src/pages/Home.jsx:110-116 | the featured expert is the first of the feed, and there is none iff the feed is empty |
| Home.ShuffleFromPermutes | src/pages/Home.jsx:94-97 | the swap loop from any index down to 1 only rearranges the list |
| Home.ShuffledPermutes | src/pages/Home.jsx:93-97 | the whole shuffle is a permutation of the fetched data |
| Home.ShuffleFromStep | src/pages/Home.jsx:94-96 | one turn of the loop swaps at i with an index no larger than i, then continues from i - 1 |
| Home.ShuffleInPlace | src/pages/Home.jsx:94-97 | the in-place loop leaves the array equal to the shuffle of its old contents |
| Home.TrendingFromCatalog | src/pages/Home.jsx:93-98 | the trending list has at most ten experts, each copy taken from the fetched data at most once |
| Home.Tick | src/pages/Home.jsx:118-124 | with three or more experts the next index is below the length; with fewer, nothing ticks |
| Home.TickStep | src/pages/Home.jsx:121 | a tick steps forward, wrapping from the last index to 0 |
| Home.TickTimesForward | src/pages/Home.jsx:120-121 | before the end, k ticks advance the index by k |
| Home.TickCycle | src/pages/Home.jsx:118-124 | n ticks bring the carousel back to where it was |
| Home.Window | src/pages/Home.jsx:439-444 | the carousel shows three slots |
| Home.Highlighted | src/pages/Home.jsx:444 | exactly the middle slot, slot 1, is highlighted |
| Home.WindowSlides | src/pages/Home.jsx:439-440 | after a tick the first two cards are the previous second and third |
| Home.WindowWraps | src/pages/Home.jsx:439-441 | slot k shows the expert at `(index + k) mod n`, wrapping past the end |
| Home.SearchTarget | src/pages/Home.jsx:126-130 | a blank search goes nowhere; otherwise the query is the trimmed, non-empty search |
| Home.HomePage.constructor | src/pages/Home.jsx:38-43 | the page starts with an empty feed, no trending experts and index 0 |
| Home.HomePage.RefreshRecommendations | src/pages/Home.jsx:51-116 | the feed and requests are those of the recommendation run, and the featured expert follows the feed |
| Home.HomePage.LoadTrending | src/pages/Home.jsx:89-101 | trending is the first ten of the shuffled fetched array, empty for a non-array or a failure |
| Home.HomePage.TickCarousel | src/pages/Home.jsx:120-122 | the index moves by one tick |
| ExpertDetail.LoginNotSeenAsWritten | src/pages/ExpertDetail.jsx:44 | after login with a non-empty token the page, as coded, still sees no login |
| ExpertDetail.LoginSeen | src/utils/auth.js:13-15 | reading the session token, the page is logged in after a non-empty login and out after logout |
| ExpertDetail.StoredEmail | src/pages/ExpertDetail.jsx:45 | `getItem('email')` is the stored email, or none iff the key is absent |
| ExpertDetail.InitialSaved | src/pages/ExpertDetail.jsx:57-66 | the flag is true iff the user is logged in with an email, the saved-id reply is an array, and it holds the expert's `_id` |
| ExpertDetail.FetchesSaved | src/pages/ExpertDetail.jsx:56 | the saved list is asked for iff the user is logged in and the email is present and non-empty |
| ExpertDetail.WikiTitle | src/pages/ExpertDetail.jsx:69 | the title is a '/'-free suffix of the URL that starts the URL or follows a '/' |
| ExpertDetail.WikiTitleUnique | src/pages/ExpertDetail.jsx:69 | any such suffix is the title, so the title is exactly the text after the last '/' |
| ExpertDetail.WikiLookup | src/pages/ExpertDetail.jsx:68-69 | a title is looked up iff the record has a non-empty `wikipedia_url`, and it is that URL's `WikiTitle` |
| ExpertDetail.EndpointFor | src/pages/ExpertDetail.jsx:102-104 | the remove endpoint iff the click saw the expert saved |
| ExpertDetail.Start | src/pages/ExpertDetail.jsx:94-109 | logged out: no request, the flag kept, the login prompt as an error, a redirect scheduled; logged in: the request for the current flag and nothing else changed |
| ExpertDetail.Resolve | src/pages/ExpertDetail.jsx:110-125 | an acknowledgement sets the flag to the opposite of what the click saw, with the removed or saved message; a refusal shows the server message verbatim and a throw the network message, both as errors and both keeping the flag |
| ExpertDetail.Toggle | src/pages/ExpertDetail.jsx:94-125 | a logged-out click only prompts and schedules the redirect; a logged-in one answered at once flips the flag iff it is acknowledged |
| ExpertDetail.SaveThenRemoveRestores | src/pages/ExpertDetail.jsx:110-119 | two acknowledged clicks in sequence restore the flag; a save is followed by a remove |
| ExpertDetail.OverlappingClicksFlipOnce | src/pages/ExpertDetail.jsx:94-119 | two clicks before any reply send the same request and, both acknowledged, flip the flag once |
| ExpertDetail.FailureKeepsFlag | src/pages/ExpertDetail.jsx:120-125 | a reply other than an acknowledgement never changes the flag |
| ExpertDetail.ExpertDetailPage.constructor | src/pages/ExpertDetail.jsx:39-45 | the page starts unsaved, with no notification, of kind success |
| ExpertDetail.ExpertDetailPage.Loaded | src/pages/ExpertDetail.jsx:51-70 | the saved list is fetched iff logged in with an email; the flag and the title are derived as above; the notification is kept |
| ExpertDetail.ExpertDetailPage.Bookmark | src/pages/ExpertDetail.jsx:94-109 | the page takes the panel the click leaves, and sends the click's request, carrying the flag the click saw |
| ExpertDetail.ExpertDetailPage.BookmarkSettled | src/pages/ExpertDetail.jsx:110-125 | the page takes the panel the reply leaves |
| ExpertDetail.ExpertDetailPage.CloseNotification | src/pages/ExpertDetail.jsx:145 | the notification is hidden and nothing else changes |
| Dashboard.LoginEmailNotSeenAsWritten | src/pages/Dashboard.jsx:11 | after login stores an email, the page as coded still has none and fetches nothing |
| Dashboard.LoginEmailSeen | src/pages/Dashboard.jsx:17 | reading the session, a login with a non-empty email lets the page fetch |
| Dashboard.SessionEmail | src/pages/Dashboard.jsx:11 | the corrected reading of this line: the email that login stores in the session store, or none when it is absent |
| Dashboard.Lookups | src/pages/Dashboard.jsx:25-31 | a successful run of lookups yields no more records than ids |
| Dashboard.LookupsSpec | src/pages/Dashboard.jsx:25-31 | the run fails iff some lookup throws; otherwise it holds exactly the records found |
| Dashboard.LookupsAppend | src/pages/Dashboard.jsx:25-31 | lookups of consecutive id runs concatenate in order |
| Dashboard.LookupsAllFound | src/pages/Dashboard.jsx:25-31 | when every lookup is found, record i is the record of id i |
| Dashboard.LoadedList | src/pages/Dashboard.jsx:21-37 | the list is the looked-up records for an ok array reply, and empty for a non-array, a failure, or a thrown lookup |
| Dashboard.WithoutId | src/pages/Dashboard.jsx:54 | removal keeps a subsequence holding every entry whose `_id` differs, with all its copies, and no entry with that `_id` |
| Dashboard.WithoutIdIdempotent | src/pages/Dashboard.jsx:54 | removing the same id twice equals removing it once |
| Dashboard.DashboardPage.constructor | src/pages/Dashboard.jsx:6-11 | the page starts loading, with an empty list, the slot at `null` and no pending timers |
| Dashboard.DashboardPage.Load | src/pages/Dashboard.jsx:15-41 | no email means no fetch and an unchanged list; otherwise the loaded list; loading ends |
| Dashboard.DashboardPage.IsDisabled | src/pages/Dashboard.jsx:187 | a card's button is disabled iff its `_id` is the slot's value, `null` and `undefined` kept apart |
| Dashboard.DashboardPage.BeginRemove | src/pages/Dashboard.jsx:43-50 | the slot holds the id, exactly the cards with that `_id` are disabled, and the request carries the email and id |
| Dashboard.DashboardPage.FinishRemove | src/pages/Dashboard.jsx:51-64 | success schedules the grace removal; a refusal or a throw keeps the list, resets the slot to `null` and shows the server message or the fixed fallback; then only cards whose `_id` is `null` are disabled |
| Dashboard.DashboardPage.GraceElapsed | src/pages/Dashboard.jsx:53-56 | the oldest pending id's entries go, other entries keep their order, and the slot is reset to `null` |
| Profile.HasScheme | src/pages/Profile.jsx:25 | a value with a scheme is at least seven characters long and starts with `http` in some case |
| Profile.Normalize | src/pages/Profile.jsx:22-30 | the value is trimmed; the phone line never gets a prefix; any other non-empty value without a case-insensitive `http://` or `https://` gets `https://` prepended; the result is empty iff the input is blank |
| Profile.PrefixedHasScheme | src/pages/Profile.jsx:25-26 | a prefixed value is trimmed and has a scheme |
| Profile.NormalizeIdempotent | src/pages/Profile.jsx:22-30 | saving a saved value again changes nothing |
| Profile.AddSkillTo | src/pages/Profile.jsx:165-171 | the trimmed input is appended iff it is non-empty and absent; otherwise the list is unchanged |
| Profile.AddKeepsDistinct | src/pages/Profile.jsx:168 | the absence check keeps a duplicate-free list duplicate-free |
| Profile.RemoveSkillFrom | src/pages/Profile.jsx:175-176 | every copy of the skill goes and the others keep their order and copies |
| Profile.AddThenRemove | src/pages/Profile.jsx:165-179 | adding a skill not yet listed and then removing it restores the list, repeats in the list included |
| Profile.ShowFlag | src/pages/Profile.jsx:309 | `val.toString()` is "true" iff the flag is set and "false" iff it is not |
| Profile.StoredOrEmpty | src/pages/Profile.jsx:131-136 | `getItem(k) \|\| ''` is the stored value when the key is present, and "" otherwise |
| Profile.ContactVisibleFrom | src/pages/Profile.jsx:137 | the contact is hidden iff the store holds exactly "false" for it |
| Profile.ContactVisibleRoundTrip | src/pages/Profile.jsx:305-310 | the stored text of a flag decodes to that flag |
| Profile.ProfilePage.constructor | src/pages/Profile.jsx:125-139 | the links, phone, location and flag are read from the store |
| Profile.ProfilePage.SaveSocialLink | src/pages/Profile.jsx:147-153 | a known link key takes the value in its field and the store; any other key changes nothing |
| Profile.ProfilePage.SavePhone | src/pages/Profile.jsx:155-158 | the phone and its stored copy take the value |
| Profile.ProfilePage.SaveLocation | src/pages/Profile.jsx:160-163 | the location and its stored copy take the value |
| Profile.ProfilePage.SaveField | src/pages/Profile.jsx:288-301 | each editable line reaches its own save handler |
| Profile.ProfilePage.SaveEditable | src/pages/Profile.jsx:22-30 | the normalised value reaches the line's handler |
| Profile.ProfilePage.AddSkill | src/pages/Profile.jsx:165-173 | the list becomes its add-skill form and the input is always cleared |
| Profile.ProfilePage.RemoveSkill | src/pages/Profile.jsx:175-179 | the list becomes its remove-skill form |
| Profile.ProfilePage.ToggleContactVisible | src/pages/Profile.jsx:305-310 | the flag flips and its stored text reads back as the new flag |
| Contact.RegexAccepts | src/pages/Contact.jsx:25-26 | a string the pattern accepts has at least five characters; `Contact.EmailShapeIsRegex` ties it to `Contact.EmailShape` |
| Contact.EmailShape | src/pages/Contact.jsx:25-26 | a string the left-to-right check accepts has at least five characters; `Contact.EmailShapeIsRegex` ties it to `Contact.RegexAccepts` |
| Contact.FirstIndex | src/pages/Contact.jsx:25 | the first index of a character, none iff absent |
| Contact.ShapeToRegex | src/pages/Contact.jsx:25-26 | an email passing the left-to-right check matches the pattern |
| Contact.RegexToShape | src/pages/Contact.jsx:25-26 | an email matching the pattern passes the check |
| Contact.EmailShapeIsRegex | src/pages/Contact.jsx:25-26 | the check accepts exactly what the pattern accepts |
| Contact.AcceptedEmails | src/pages/Contact.jsx:25-26 | the pattern accepts an email iff it has no white space, exactly one '@' with text before it, and an inner '.' in the part after it |
| Contact.Validation | src/pages/Contact.jsx:19-32 | a blank trimmed field gives "All fields are required." first; otherwise the form is valid iff the untrimmed email matches, else "Please enter a valid email address." |
| Contact.BlankBeatsEmail | src/pages/Contact.jsx:21-24 | a blank name, phone or message gives the required-field error whatever the email is |
| Contact.ContactForm.constructor | src/pages/Contact.jsx:6-13 | empty fields, not submitted, no error |
| Contact.ContactForm.Edit | src/pages/Contact.jsx:15-17 | one field takes the typed value |
| Contact.ContactForm.ValidateForm | src/pages/Contact.jsx:19-32 | the error becomes the verdict, and the form is valid iff there is none |
| Contact.ContactForm.Submit | src/pages/Contact.jsx:34-39 | an invalid form changes only the error; a valid one clears the success flag and the error and starts a completion timer |
| Contact.ContactForm.StartSubmit | src/pages/Contact.jsx:37-43 | the success flag and the error are cleared, one more completion timer is pending, the fields are kept |
| Contact.ContactForm.SubmitCompleted | src/pages/Contact.jsx:40-43 | the success flag is set and all four fields are emptied |
| Analytics.DomainSet | src/pages/Analytics.jsx:27-30 | a string is covered iff it is the lower-cased domain of an expert with a non-empty domain |
| Analytics.DomainsCoveredBound | src/pages/Analytics.jsx:26-33 | there are no more covered domains than experts |
| Analytics.CaseVariantsCountOnce | src/pages/Analytics.jsx:29 | two domains equal up to case count once |
| Analytics.ComputeStats | src/pages/Analytics.jsx:26-35 | the total is the list's length and the covered count is the size of the domain set |
| Analytics.AnalyticsPage.constructor | src/pages/Analytics.jsx:12-17 | both counts start at 0 while loading |
| Analytics.AnalyticsPage.Load | src/pages/Analytics.jsx:21-39 | an array sets both counts; anything else keeps them; loading ends |
| Auth.TokenPresent | src/utils/auth.js:13-15 | logged in means an `authToken` entry that is not the empty string |
| Auth.SessionStore.IsLoggedIn | src/utils/auth.js:13-15 | `isLoggedIn()` holds iff the store's entries hold a token |
| Auth.SessionStore.constructor | src/utils/auth.js:4-15 | the store holds its initial entries |
| Auth.SessionStore.Login | src/utils/auth.js:4-7 | the token is stored under `authToken`, replacing any earlier one |
| Auth.SessionStore.Logout | src/utils/auth.js:9-11 | the `authToken` entry is removed |
| Auth.LoginLogsIn | src/utils/auth.js:4-15 | after `login(t)` the user is logged in iff t is non-empty, and the stored token is t |
| Auth.LogoutLogsOut | src/utils/auth.js:9-15 | after `logout` nobody is logged in |
| Auth.OtherKeysUntouched | src/utils/auth.js:6-10 | `login` and `logout` leave every other key and its value unchanged |
| Auth.LoginThenLogout | src/utils/auth.js:4-11 | logging in and then out leaves the store as a bare logout would |

## Findings

| source | as written | input that shows it | evidently intended | confidence | as-written member | corrected member |
|---|---|---|---|---|---|---|
| src/pages/ExpertDetail.jsx:44 | the page's login test reads a `token` key of the local store. Nothing in the client writes that key: login stores `authToken` in the session store (src/pages/Login.jsx:42). | a user logged in with a non-empty token, on a local store with no `token`: every bookmark click shows "Please log in to save experts." | the same test as `isLoggedIn()` in src/utils/auth.js | medium, not executed | ExpertDetail.LoginNotSeenAsWritten | ExpertDetail.LoginSeen |
| src/pages/Dashboard.jsx:11 | the dashboard reads `email` from the local store. Login stores the email in the session store (src/pages/Login.jsx:43). The detail page does the same at src/pages/ExpertDetail.jsx:45. | a user logged in with a non-empty email, on a local store with no `email`: the saved list is never fetched | the email login stored in the session | medium, not executed | Dashboard.LoginEmailNotSeenAsWritten | Dashboard.LoginEmailSeen |

The two page classes use the corrected reading. `ExpertDetail.ExpertDetailPage`
and `Dashboard.DashboardPage` are constructed from the session store.

## Left out

- **Network and JSON.** `fetch` and JSON decoding are not modelled. Each request is an abstract reply parameter. The Dashboard's `Promise.all` becomes sequence order.
- **Randomness.** `Math.random` becomes a permutation or index parameter. Nothing is claimed about uniformity or bias.
- **Timers.**
  - Timers are not scheduled in real time. `setInterval`, the redirect of `setTimeout` and the notification's auto-close become explicit steps or a flag.
  - Cancellation is not modelled, and neither is the clean-up when a page unmounts.
- **Stores.** The local and session stores are plain maps. Two details are not modelled:
  - `setItem` converting a non-string value to a string, for example an absent `data.token` stored as "undefined";
  - the session store being cleared by the context's logout.
- **Stored skills.** The skill list is stored as JSON text, which is not modelled. `Profile.ProfilePage.constructor` takes the decoded list as a parameter, and the skill methods do not write the store.
- **Wikipedia.** The summary lookup is an external service and is left out. Only the title is modelled.
- **Text case.** Case mapping, `\w` and `\b` are ASCII only. String order for `sort` is character order, each character counting as one code unit; JavaScript compares UTF-16 code units, which differs only for characters above U+FFFF.
- **Presentation files.** These are left out: animations, the splash screen, the navigation bar, the theme toggle, the avatar picker, routing, the about, login and register pages, and the static mock data.
- **Rating.** The constant `averageRating` of Analytics.jsx is a float and is left out.
- **Unusual shapes the pages do not guard against.** None of these is modelled:
  - a record whose `name`, `domain` or `location` is absent or not a string; in the source the filter then throws;
  - a decoded but non-array catalog; the experts page stores it before `map` throws, and the model keeps the previous catalog;
  - a `recentSearches` or `savedExperts` field that is a string; `slice` or `includes` then acts on text;
  - `saveSocialLink` keys inherited from `Object.prototype`; the page only passes the four link keys;
  - an `_id` or `id` that is a number or an object; an id is `undefined`, `null` or a string;
  - a `savedExperts` entry that is not a string, which `includes` could match against a `null` `_id`.
- Experts.ExpertsPage.LoadRecentSearches: the reply's effect is applied at once. A reply that arrives after the user changed is not modelled as stale.
- Home.Window: its own contract states only the length. The contents are stated by `Home.WindowWraps` and `Home.WindowSlides`.
- Home.HomePage.RefreshRecommendations: the effect runs only on user changes, and its reruns are not modelled.
