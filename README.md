# Artisan Finder front end: a Dafny model of its page logic

Artisan Finder is a React directory of tradespeople ("artisans"). Visitors search
by skill and location, open an artisan's profile, and an administrator creates,
edits and deletes records over a REST backend. This project models the part of
the front end that is logic rather than markup:

- the Search page's client-side filter, a case-insensitive substring match on
  skill and on location. An empty value or the exact sentinel "All Skills" /
  "All Locations" switches that part off (`Filter`);
- the query parameters that Home and Search build from a (skill, location) pair,
  and the `/search?...` target of Home's search (`QueryParams`, `Home`);
- the Search page's state: the fetched list, the filtered list, loading, the
  error message and the URL query (`SearchPage.Page`);
- the search bar's two draft fields and its submit and Enter-key handlers
  (`SearchBar.Bar`);
- `getInitials`, which the card and the profile page both define
  (`Initials`), and the card's profile link (`ArtisanCard`);
- the profile page's fetch, render choice and fallback "About" text
  (`ArtisanProfile`);
- the admin dashboard: list loading, the form draft, create-or-update on submit,
  and confirmed delete (`Admin.Dashboard`).

The network is an input. Every `fetch` + `response.json()` is an
`Outcome` (`Ok(data)` or `Fail`). A non-OK status, a transport error and a body
that does not parse all reach the same `catch`, so they share `Fail`. `confirm(...)`
is a boolean argument. `Math.random()` becomes a job-count argument in [10, 209].
Toasts are recorded in a `toasts` sequence, and requests are returned as values.
Each handler runs atomically. The two effects that follow a state change are
folded into the handler that causes them:
- the Search page's re-filter after a new list or a new URL query;
- the profile page's refetch after a new route id.

Case mapping (`toLowerCase`, `toUpperCase`) is defined on ASCII letters; every
other character is left unchanged.

Two behaviours of the source are modelled as written and stated as proved
properties.
- Neither the Search page nor the profile page ever clears its error message.
  After one failure, a later successful fetch still shows the error view:
  `SearchPage.RetryAfterFailure`, `ArtisanProfile.StaleError`.
- Search's `handleSearch` filters with its raw arguments. Its effect on
  `[artisans, initialSkill, initialLocation]` filters again with the values read
  back from the URL, but only when one of those values differs from before. Either
  way the two lists are equal (`QueryParams.ReadBackFiltersAlike`), and this is why the page invariant
  `SearchPage.Page.Valid` holds after every handler.

## Model

| member | source | states |
|---|---|---|
| Filter.Keep | src/pages/Search.tsx:60-62 | `Array.filter`: each record occurs in the result exactly as often as in the input when the predicate holds, and not at all otherwise; the result is no longer than the input |
| Filter.FilterArtisans | src/pages/Search.tsx:56-72 | the filtered list is never longer than the input, and an empty input gives an empty list |
| Filter.FilterIsSubsequence | src/pages/Search.tsx:56-71 | the filtered list is an order-preserving subsequence of the input: nothing added, duplicated or reordered |
| Filter.FilterCounts | src/pages/Search.tsx:59-69 | a record occurs in the result as often as in the input if it satisfies every active part of the query, else zero times |
| Filter.FilterSound | src/pages/Search.tsx:59-69 | every listed record's lower-cased skill includes the lower-cased query skill when that is active, and likewise for location |
| Filter.FilterComplete | src/pages/Search.tsx:59-69 | every input record satisfying all active parts is listed |
| Filter.FilterInactiveIsIdentity | src/pages/Search.tsx:57-69 | an empty or sentinel skill and location give back the input list unchanged |
| Filter.FilterIdempotent | src/pages/Search.tsx:59-69 | filtering the result again with the same query changes nothing |
| Filter.FilterOrderIrrelevant | src/pages/Search.tsx:59-69 | applying the skill and location filters in either order gives the same list |
| Filter.PlumbExample | src/pages/Search.tsx:59-63 | query ("plumb", "") on [Plumber, Mason] gives exactly [Plumber] |
| Filter.PlumbMatchesPlumberOnly | src/pages/Search.tsx:61 | the case-insensitive match accepts "Plumber" and rejects "Mason" for "plumb" |
| Text.IncludesIff | src/pages/Search.tsx:61 | `includes` holds exactly when the needle occurs at some index of the haystack |
| Text.LowerChar | src/pages/Search.tsx:61 | `toLowerCase` leaves no capital letter, turns exactly the capitals into a different lower-case letter, and keeps every other character |
| Text.UpperChar | src/components/artisan/ArtisanCard.tsx:30 | `toUpperCase` leaves no lower-case letter, turns exactly the lower-case letters into a different capital, keeps every other character, and gives a space exactly for a space |
| Text.CaseRoundTrip | src/pages/Search.tsx:61 | the two case mappings undo each other on the letters they change, and each is idempotent |
| Text.IntToStringRoundTrip | src/components/artisan/ArtisanCard.tsx:93 | the decimal rendering of an id reads back as the same id |
| QueryParams.GetSet | src/pages/Search.tsx:76-77 | after `set(key, v)`, `get(key)` is v and every other key reads as before |
| QueryParams.SearchParams | src/pages/Home.tsx:12-14 | the parameter list Home and Search build; `QueryParams.SearchParamsShape` gives its exact shape and `QueryParams.ReadBack` what `get` returns from it |
| QueryParams.SearchParamsShape | src/pages/Home.tsx:12-14 | the parameters are `skill` then `location`, each present exactly when its value is non-empty and not the sentinel, with the value verbatim |
| QueryParams.ReadBack | src/pages/Search.tsx:28-29 | reading `skill` and `location` back, with a missing key read as "", gives the active value or "" |
| QueryParams.ReadBackFiltersAlike | src/pages/Search.tsx:35-37 | filtering with the values read back from the URL equals filtering with the raw arguments |
| QueryParams.QueryString | src/pages/Home.tsx:16 | the serialised query is empty exactly when there are no parameters |
| Home.Href | src/pages/Home.tsx:16 | the string handed to `navigate`; `Home.HrefPrefix`, `Home.HrefWithoutQuery` and `Home.HrefWithBoth` state its form |
| Home.HandleSearch | src/pages/Home.tsx:11-17 | the target path is `/search`; `get("skill")` is the skill exactly when active, and likewise `location` |
| Home.HrefPrefix | src/pages/Home.tsx:16 | the navigation string always starts with "/search?" |
| Home.HrefWithoutQuery | src/pages/Home.tsx:13-16 | with both values inactive the target is exactly "/search?" |
| Home.HrefWithBoth | src/pages/Home.tsx:13-16 | with both active the target is "/search?skill=S&location=L", skill first |
| Home.SentinelIsCaseSensitive | src/pages/Home.tsx:13-14 | "all skills" is sent as a filter value, while "All Skills"/"All Locations" are dropped |
| SearchPage.CountLabel | src/pages/Search.tsx:114 | the results count label; `SearchPage.CountLabelPlural` states its wording for every count |
| SearchPage.Summary | src/pages/Search.tsx:115-118 | the "for S in L" summary; `SearchPage.SummaryCases` states its four cases |
| SearchPage.CountLabelPlural | src/pages/Search.tsx:114 | the count label reads "artisan found" for one and "artisans found" otherwise |
| SearchPage.SummaryCases | src/pages/Search.tsx:115-118 | the summary is " for S in L", " for S", " for L" or nothing, by which values are non-empty |
| SearchPage.ViewOf | src/pages/Search.tsx:83-139 | spinner exactly while loading, then the error view exactly when the message is non-empty, else the filtered cards with their count label |
| SearchPage.Page.constructor | src/pages/Search.tsx:21-25 | mount: empty lists, loading, no error, the URL's query; the page invariant holds |
| SearchPage.Page.FetchArtisans | src/pages/Search.tsx:39-54 | loading ends; success replaces the list and re-filters by the URL query; failure sets the fixed message and keeps both lists; the error is never cleared |
| SearchPage.Page.FilterWith | src/pages/Search.tsx:56-72 | the shown list becomes the filter of the fetched list |
| SearchPage.Page.HandleSearch | src/pages/Search.tsx:74-81 | the URL gets the active values, the list is filtered with the raw arguments, and the list still equals the filter by the URL query |
| SearchPage.Page.ShowAll | src/pages/Search.tsx:129 | "Show All Artisans" clears the URL query and shows the whole fetched list |
| SearchPage.RetryAfterFailure | src/pages/Search.tsx:94-99 | after a failed load, "Try Again" with a successful response still shows the error view |
| SearchPage.FirstLoad | src/pages/Search.tsx:31-37 | the first successful load lists exactly what the URL query selects |
| Initials.GetInitials | src/components/artisan/ArtisanCard.tsx:25-31 | `getInitials`, identical at src/pages/ArtisanProfile.tsx:51-57; `Initials.InitialsLength` and `Initials.InitialsAt` determine it character by character, and the space lemmas below state how spacing affects it |
| Initials.Split | src/components/artisan/ArtisanCard.tsx:27 | `split(" ")` yields at least one piece and no piece contains a space |
| Initials.SplitJoin | src/components/artisan/ArtisanCard.tsx:27 | joining the pieces with " " gives the name back |
| Initials.InitialsLength | src/components/artisan/ArtisanCard.tsx:25-31 | one initial per non-empty piece of the name |
| Initials.InitialsAt | src/pages/ArtisanProfile.tsx:51-57 | initial i is the upper-cased first character of the i-th non-empty piece |
| Initials.InitialsOfEmpty | src/components/artisan/ArtisanCard.tsx:25-31 | the initials of "" are "" |
| Initials.LeadingSpace | src/components/artisan/ArtisanCard.tsx:26-30 | a leading space contributes nothing |
| Initials.TrailingSpace | src/components/artisan/ArtisanCard.tsx:26-30 | a trailing space contributes nothing |
| Initials.DoubledSpace | src/components/artisan/ArtisanCard.tsx:26-30 | a doubled space between words contributes nothing extra |
| Initials.TabDoesNotSeparate | src/components/artisan/ArtisanCard.tsx:27 | a tab does not separate words: "a\tb" gives "A" |
| Initials.InitialsOfInitials | src/components/artisan/ArtisanCard.tsx:25-31 | the initials contain no space, so taking initials of them keeps only the first |
| ArtisanCard.ProfilePath | src/components/artisan/ArtisanCard.tsx:93 | the "View Profile" link starts with "/artisan/" |
| ArtisanCard.ProfileLinkRoutes | src/App.js:18 | the `/artisan/:id` route applied to a card's link yields the artisan's id as text; the route cited is the one of the second, JavaScript app tree, which mounts `src/components/pages/ArtisanProfile` rather than `src/pages/ArtisanProfile.tsx`, and the pattern is the same |
| ArtisanCard.ProfileLinkIdentifies | src/components/artisan/ArtisanCard.tsx:93 | different ids give different profile links |
| ArtisanCard.AvatarFallback | src/components/artisan/ArtisanCard.tsx:39-41 | the avatar fallback has one character per non-empty piece of the name split at " ", whatever that character is (a digit or punctuation mark counts too) |
| ArtisanProfile.ViewOf | src/pages/ArtisanProfile.tsx:59-79 | spinner exactly while loading; otherwise the error view exactly when there is a message or no record; otherwise that record's profile |
| ArtisanProfile.AboutText | src/pages/ArtisanProfile.tsx:167 | the "About" text; `ArtisanProfile.AboutTextContent` states its content in each case |
| ArtisanProfile.FallbackLayout | src/pages/ArtisanProfile.tsx:167 | the generated text starts with "NAME is a skilled " and holds the lower-cased skill, the experience and the location at increasing offsets |
| ArtisanProfile.AboutTextContent | src/pages/ArtisanProfile.tsx:167 | a non-empty description is shown verbatim; otherwise the text opens with "NAME is a skilled " and holds the lower-cased skill, the experience and the location at the offsets the template gives them, in that order, so each is found by `includes` |
| ArtisanProfile.Page.constructor | src/pages/ArtisanProfile.tsx:24-28 | mount: loading, no error, no record |
| ArtisanProfile.Page.FetchArtisan | src/pages/ArtisanProfile.tsx:34-49 | fetches `/artisans/{id}`; success sets the record, failure sets the fixed message, neither clears the other; loading ends and the spinner is gone |
| ArtisanProfile.Page.ChangeId | src/pages/ArtisanProfile.tsx:30-32 | setting the route id to the one already shown fetches nothing and changes nothing; a different id is fetched, with the same outcome rules as the first fetch |
| ArtisanProfile.UnknownId | src/pages/ArtisanProfile.tsx:37-48 | a failed fetch ends in the error view with a non-empty message, never stuck loading |
| ArtisanProfile.StaleError | src/pages/ArtisanProfile.tsx:30-49 | after a failure, moving to an id that loads still shows the error view |
| ArtisanProfile.SameIdKeepsProfile | src/pages/ArtisanProfile.tsx:30-32 | a shown profile stays shown when the route is set to the same id, whatever the backend would now answer |
| ArtisanProfile.FirstLoad | src/pages/ArtisanProfile.tsx:97-101 | a successful fetch shows that record, and its avatar fallback has one character per non-empty piece of the name |
| SearchBar.SkillOptionsActivity | src/components/search/SearchBar.tsx:18-28 | every skill option except "All Skills" constrains the search |
| SearchBar.Bar.constructor | src/components/search/SearchBar.tsx:42-43 | both draft fields start as "" |
| SearchBar.Bar.SelectSkill | src/components/search/SearchBar.tsx:61-79 | the skill becomes the chosen option and the location is unchanged |
| SearchBar.Bar.TypeLocation | src/components/search/SearchBar.tsx:84-91 | the location becomes the typed text and the skill is unchanged |
| SearchBar.Bar.HandleSearch | src/components/search/SearchBar.tsx:45-47 | the submitted pair is exactly the current skill and location, and the skill is "" or an offered option |
| SearchBar.Bar.HandleKeyPress | src/components/search/SearchBar.tsx:49-53 | a search is submitted exactly when the key is "Enter" |
| SearchBar.SubmitUntouched | src/components/search/SearchBar.tsx:42-47 | submitting an untouched bar sends two inactive values |
| Admin.FormOf | src/pages/Admin.tsx:142-149 | the draft `startEdit` copies; its description is "" exactly when the record has none or an empty one, and `Admin.EditUnchangedRoundTrip` states what it sends back |
| Admin.SaveRequest | src/pages/Admin.tsx:66-83 | the method, URL and body of a save; `Admin.SaveTargetsEditedRecord` and `Admin.SavePayloadCarriesDraft` state them |
| Admin.DeleteRequest | src/pages/Admin.tsx:107-109 | the DELETE of `/artisans/{id}`; `Admin.Dashboard.HandleDelete` states when it is sent |
| Admin.WithField | src/pages/Admin.tsx:178-244 | an input's change sets its own field and leaves the other five |
| Admin.SaveTargetsEditedRecord | src/pages/Admin.tsx:73-83 | PUT exactly when editing, to the URL of the edited record, with its id in the body; otherwise POST to the collection without an id |
| Admin.SavePayloadCarriesDraft | src/pages/Admin.tsx:66-70 | the body carries the six draft fields, rating 4.5 and a job count in [10, 209] |
| Admin.EditUnchangedRoundTrip | src/pages/Admin.tsx:141-152 | editing a record and saving at once sends a PUT of that id whose body, read as a record, is the record itself with a missing description sent as "", the rating replaced by 4.5, the job count by the random one and no avatar; so an unchanged edit overwrites a rating other than 4.5 and the stored job count |
| Admin.EditSevenUpdatesSeven | src/pages/Admin.tsx:73-82 | editing record 7 issues a PUT to ".../artisans/7" whose body has id 7 |
| Admin.ViewOf | src/pages/Admin.tsx:170-285 | the total equals the list length; rows are shown exactly when loaded and non-empty; the dialog reads "Edit Artisan" exactly when editing |
| Admin.Dashboard.constructor | src/pages/Admin.tsx:26-39 | mount: empty list, loading, dialog closed, nothing edited, empty draft |
| Admin.Dashboard.FetchArtisans | src/pages/Admin.tsx:45-61 | success replaces the list whole, failure keeps it and adds the error toast; loading always ends |
| Admin.Dashboard.ResetForm | src/pages/Admin.tsx:128-139 | empty draft, nothing edited, dialog closed; nothing else changes |
| Admin.Dashboard.OpenAddDialog | src/pages/Admin.tsx:164 | "Add Artisan" gives an empty draft, nothing edited, and an open dialog |
| Admin.Dashboard.StartEdit | src/pages/Admin.tsx:141-152 | the draft takes the record's fields, the record is being edited, the dialog opens; what that draft sends back is stated by `Admin.EditUnchangedRoundTrip` |
| Admin.Dashboard.SetDialogOpen | src/pages/Admin.tsx:162 | dismissing or opening the dialog changes only its open flag |
| Admin.Dashboard.EditField | src/pages/Admin.tsx:181 | the draft changes in the one edited field |
| Admin.Dashboard.HandleSubmit | src/pages/Admin.tsx:63-101 | sends the save request; on success adds the success toast, resets the form and reloads; on failure keeps draft, edited record, dialog and list and adds the error toast |
| Admin.Dashboard.HandleDelete | src/pages/Admin.tsx:103-126 | declined: no request and no change; confirmed: a DELETE of that id, then a reload on success or an error toast with the list unchanged |
| Admin.AddAfterEdit | src/pages/Admin.tsx:162-164 | after editing and dismissing the dialog, "Add Artisan" opens the dialog titled as a create, and submitting sends a POST without an id |

## Left out

- Percent-encoding: `URLSearchParams.toString()` percent-encodes keys and
  values. `QueryParams.QueryString` joins `key=value` pairs with `&` unencoded,
  so the model does not show that a value holding `&` or `=` survives the trip
  through the URL. The Search page therefore receives its query as the list of
  pairs.
- Unicode: case mapping beyond ASCII (for example "É" to "é", or "ß" to "SS")
  is not modelled. Nor is UTF-16 indexing, where `n[0]` of a name starting with
  an astral character is a lone surrogate; the model takes a whole character.
- Concurrency and React scheduling: effects re-running, a response arriving
  after unmount, stale closures, and the un-awaited `fetchArtisans()` racing
  `resetForm()` in `handleSubmit` are all out of scope. Each handler is atomic,
  and the reload in `HandleSubmit` settles after `ResetForm`.
- A fetch that never settles (the page stays loading) is not represented,
  because every handler receives a settled outcome.
- Admin.Dashboard.HandleSubmit: does not model the browser's `required` checks,
  which block submitting an empty name, location, phone or experience. The
  skill select's eight fixed choices (src/pages/Admin.tsx:193-200) are not
  imposed on `EditField`. Request headers, `preventDefault` and JSON key order
  are not modelled. Whether the backend stores the body of a PUT or POST is outside
  the model, so after a save the list is only what the reload returns: the model
  does not promise that it reflects the edited fields.
- `console.error`, and the profile page's "Back" / "Back to Search"
  navigation buttons, are not modelled.
- The JSON bodies are typed as the records they should be. A body that is
  `null` or not an array is not represented.
- The rating 4.5 is an exact `real` rather than a binary float.
- Artisan ids are unbounded integers. A JavaScript number is a double: ids of
  2^53 or more lose precision and `${id}` prints ids of 10^21 or more in
  exponent form, so `ArtisanCard.ProfilePath` and `Admin.RecordUrl` differ from
  the source for such ids.
- The `locations` list of the search bar is declared but never rendered, so it
  has no effect. It appears only as `SearchBar.LocationOptions`; "All Locations"
  reaches the filter only when typed.
- JSX layout, styling, the conditional display of rating and completed jobs,
  and the other static texts of the profile page.
- The API client modules under `src/lib`, `Navbar.tsx`, and the second app tree
  (`src/App.js`, `src/components/pages/Home.js`) are not part of this model.
  The only exception is the `/artisan/:id` route of `src/App.js`, which
  `ArtisanCard.RouteId` uses.
