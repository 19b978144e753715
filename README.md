# Session launcher extension — Dafny model

The extension lets a user browse, filter and create remote coding-agent sessions
through three views. Almost all of it is HTTP fetching and rendering; this project
models the small amount of deterministic logic inside the views and proves what
it promises:

- **Menu bar** (`MenuBarStatus`, pure): titles are shortened to 40 characters plus
  `"..."`; a free-text session state is mapped, ignoring letter case, to one of four
  icon buckets; only the first five sessions of the response are shown; a
  placeholder item appears exactly when there is nothing to show and nothing is
  loading; clicking a session opens its URL only if it has one.
- **Session list** (`ListSessions`, mixed): the class `SessionList` holds the
  selected source and the latest response of each fetch. The sources response
  defaults an empty selection to the first source, and never overrides a
  non-empty one. The listed sessions are exactly the selected source's sessions, in
  input order. Each row gets the title fallback `title → prompt → "Untitled Session"`,
  an open-in-browser action only when the session has a URL, and a copy-id action.
- **Creation form** (`StartNewSession`, mixed): the class `NewSessionForm` applies
  the same default-once rule. The details fetch of the selected source runs only
  while a source is selected. The branch dropdown offers only the branches of the
  details fetched for the current selection, and falls back to no branches.
  `HandleSubmit` posts the payload `{prompt, sourceContext: {source,
  githubRepoContext: {startingBranch}}}` and formats a non-2xx reply as
  `"Failed to create session: <status> - <body>"`. It restyles its toast to Success
  or Failure, and lowers the in-flight flag on both paths. A ghost trace of
  observable effects records the order of those steps, and the object invariant
  ties the flag to that trace.
- `Api` holds the shared response shapes. `ViewRules` holds the two rules that more
  than one view repeats: the title fallback and the default-once selection.

Whatever a view receives from outside is an argument to the model: fetch responses,
the POST outcome (transport error, status and body, whether the body parses as
JSON) and the API key. Absent JSON fields that the code only reads through `||` or a
truthiness test are modelled as `""`. Fields that the code reads through `?.` are
modelled as `Option`.

Three client methods are verified example runs. In
`ListSessions.DefaultOnceScenario`, sources `a` and `b` arrive and `a` is chosen;
the user then picks `b`, and a refresh keeps `b`. In
`StartNewSession.SubmitScenario`, submitting `sources/42`/`main`/`fix bug` posts
exactly that body, and a 500 reply with body `boom` leaves a Failure toast naming
`boom` with the flag lowered. In `StartNewSession.DetailsScenario`, the branches of
one source are offered after its details arrive, and none once another source is
picked.

The default-source effect (src/list-sessions.tsx:77 and
src/start-new-session.tsx:77) tests `!selectedSource`, not whether the user has
chosen. So it runs again whenever the selection is empty when a sources response
arrives, including after the user has picked a source whose name is empty.
`DefaultSelection` follows this test. `DefaultAppliedOnce` and
`DefaultNeverOverrides` show that a default, once set to a non-empty name, is
never moved by a later response.

## Model

| member | source | states |
|---|---|---|
| MenuBarStatus.Truncate | src/menu-bar-status.tsx:43-46 | a text of at most `length` characters is returned unchanged; a longer one becomes exactly `length + 3` characters: its first `length` characters followed by `"..."` |
| MenuBarStatus.TruncateBounds | src/menu-bar-status.tsx:43-46 | the result is never longer than the input plus 3 nor than the width plus 3, and it starts with the input's first `length` characters, or all of them when it is shorter |
| MenuBarStatus.TruncateIdempotent | src/menu-bar-status.tsx:43-46 | shortening an already shortened title changes nothing, for every input |
| MenuBarStatus.TruncateAtTitleWidth | src/menu-bar-status.tsx:82 | at the menu bar's width 40, a 40-character title is kept and a 41-character one becomes its first 40 characters plus `"..."` (43 characters) |
| MenuBarStatus.LowerChar | src/menu-bar-status.tsx:49 | only `A`-`Z` change, each to the letter 32 code points higher; every other character is kept |
| MenuBarStatus.ToLower | src/menu-bar-status.tsx:49 | `toLowerCase` keeps the length and lower-cases character by character |
| MenuBarStatus.ToLowerIdempotent | src/menu-bar-status.tsx:49 | lower-casing twice equals lower-casing once |
| MenuBarStatus.GetStateIcon | src/menu-bar-status.tsx:48-61 | the mapping is total with one of exactly four results; orange circle iff the lower-cased state is running/in_progress/active/awaiting_user_feedback, green checkmark iff succeeded/completed/done, red X iff failed/error, gray circle iff none of these (absent read as `""`) |
| MenuBarStatus.StateIconIgnoresCase | src/menu-bar-status.tsx:49-58 | the icon of a state equals the icon of its lower-cased form |
| MenuBarStatus.StateIconCaseInsensitive | src/menu-bar-status.tsx:49-58 | two states equal up to letter case get the same icon |
| MenuBarStatus.StateIconUnset | src/menu-bar-status.tsx:49-60 | an absent or empty state gets the gray default circle |
| MenuBarStatus.RunningExamples | src/menu-bar-status.tsx:50-51 | `"Running"` and `"ACTIVE"` get the orange circle |
| MenuBarStatus.FinishedExamples | src/menu-bar-status.tsx:53-58 | `"DONE"` gets the green checkmark and `"Error"` the red X |
| MenuBarStatus.UnlistedExamples | src/menu-bar-status.tsx:59-60 | `"queued"` and `"pending"` get the gray default circle |
| MenuBarStatus.SessionsOf | src/menu-bar-status.tsx:73 | missing data or a missing session list yields `[]`; a present list is returned as it is |
| MenuBarStatus.RecentSessions | src/menu-bar-status.tsx:72-74 | the shown sessions are exactly the first `min(5, n)` sessions of the response in original order, `[]` for missing data |
| MenuBarStatus.OpenAction | src/menu-bar-status.tsx:85 | clicking a session opens a URL iff its `url` is non-empty, and then opens exactly that URL |
| MenuBarStatus.SessionItem | src/menu-bar-status.tsx:80-86 | a session's item shows its fallback title shortened to 40 (non-empty, at most 43 characters), its state as subtitle, its state's icon and its open action |
| MenuBarStatus.SessionItemShortTitle | src/menu-bar-status.tsx:82 | a fallback title of at most 40 characters is shown in full |
| MenuBarStatus.RecentSection | src/menu-bar-status.tsx:78-89 | one item per recent session in order, then the "No recent sessions" item exactly when the recent list is empty and the view is not loading |
| MenuBarStatus.NoRecentShownIff | src/menu-bar-status.tsx:88 | the placeholder is in the section iff the recent list is empty and not loading; no session item can be the placeholder |
| MenuBarStatus.ActionsSection | src/menu-bar-status.tsx:91-102 | the second section has two items, launching "start-new-session" and "list-sessions" |
| ViewRules.FirstNonEmpty | src/list-sessions.tsx:108 | the short-circuit "or" chain of JavaScript over strings: `""` iff every candidate is empty, otherwise the first non-empty candidate |
| ViewRules.FallbackTitle | src/list-sessions.tsx:108 | the title is never empty and is the first non-empty of title, prompt, `"Untitled Session"` (the same chain as src/menu-bar-status.tsx:82) |
| ViewRules.FallbackTitlePriority | src/list-sessions.tsx:108 | the title is one of the three candidates; title wins when non-empty, then prompt, then the fixed label |
| ViewRules.FirstSourceName | src/list-sessions.tsx:77-78 | the first source's name exists iff the response holds a non-empty source list |
| ViewRules.DefaultSelection | src/list-sessions.tsx:76-80 | the selection changes only from empty, and then to the first source's name; with an empty selection and a non-empty list it becomes that name (the same effect as src/start-new-session.tsx:76-80) |
| ViewRules.DefaultNeverOverrides | src/list-sessions.tsx:77 | a non-empty selection survives every sources response |
| ViewRules.DefaultSelectionIdempotent | src/list-sessions.tsx:76-80 | running the effect again on the same response changes nothing |
| ViewRules.DefaultAppliedOnce | src/list-sessions.tsx:76-80 | once a response has set a non-empty default, no later response moves it |
| ListSessions.MatchesSource | src/list-sessions.tsx:83 | a session matches iff it has a source context whose source is present and equal to the selection; a missing context or a missing source never matches, not even the empty selection |
| ListSessions.FilterBySource | src/list-sessions.tsx:82-84 | every kept session belongs to the selected source; each session occurs in the result exactly as often as in the input if it matches and never otherwise; the result is an order-preserving subsequence of the input |
| ListSessions.FilterMembership | src/list-sessions.tsx:82-84 | a session is listed iff it is in the input and its `sourceContext.source` equals the selection; a session without source context, or whose context has no source, is never listed |
| ListSessions.FilterIdempotent | src/list-sessions.tsx:82-84 | filtering a filtered list again on the same source changes nothing |
| ListSessions.FilterKeepsMatching | src/list-sessions.tsx:82-84 | when every session matches, the whole list is kept |
| ListSessions.FilteredSessions | src/list-sessions.tsx:82-84 | absent data or an absent list yields `[]`; otherwise the result is exactly the matching sessions as an order-preserving subsequence |
| ListSessions.SessionListItem | src/list-sessions.tsx:105-120 | a row shows the non-empty fallback title, the state and the id; it offers open-in-browser iff the URL is non-empty and only for that URL; the actions are exactly open-in-browser (only then) followed by copy-id |
| ListSessions.SessionList.constructor | src/list-sessions.tsx:42 | the view starts with nothing fetched and an empty selection |
| ListSessions.SessionList.ReceiveSources | src/list-sessions.tsx:76-80 | storing a sources response applies the default rule to the previous selection, never overriding a non-empty one, and leaves the sessions untouched |
| ListSessions.SessionList.ReceiveSessions | src/list-sessions.tsx:60-74 | storing a sessions response leaves the selection and sources untouched |
| ListSessions.SessionList.OnChange | src/list-sessions.tsx:93 | the user's pick becomes the selection and nothing else changes |
| ListSessions.SessionList.Shown | src/list-sessions.tsx:82-84 | the listed sessions are the filter of the stored sessions on the current selection: every one matches, each matching session occurs as often as in the response and in its order, and nothing is listed before sessions arrive |
| ListSessions.SessionList.Items | src/list-sessions.tsx:105-120 | one row per listed session, in order |
| StartNewSession.DetailFetch | src/start-new-session.tsx:58-64 | the details fetch runs iff the selection is non-empty, and then fetches `<base URL>/<selection>` |
| StartNewSession.TriggeredFetch | src/start-new-session.tsx:58-64 | a change of selection starts a details fetch iff the new selection differs from the old one and is non-empty, and then fetches `<base URL>/<new selection>` |
| StartNewSession.BranchesOf | src/start-new-session.tsx:124 | the branch list is `[]` when the details, the repository or its branch list are missing, and otherwise the fetched list |
| StartNewSession.BranchChoices | src/start-new-session.tsx:146-150 | the dropdown offers each branch's display name, one per branch, in order |
| StartNewSession.DefaultBranch | src/start-new-session.tsx:125 | the preselected branch exists iff details, repository and default branch are all present, and is then the default branch's display name |
| StartNewSession.NoDetailsNoBranches | src/start-new-session.tsx:124-125 | with no details, no repository or no branch list there are no branch choices; with no details there is no default |
| StartNewSession.BuildPayload | src/start-new-session.tsx:93-101 | the body's prompt is the message, its source is the chosen source, its starting branch is the chosen branch |
| StartNewSession.PayloadValues | src/start-new-session.tsx:93-101 | reading back a body gives its message, source and branch |
| StartNewSession.PayloadRoundTrip | src/start-new-session.tsx:93-101 | form values and payload determine each other in both directions |
| StartNewSession.CreateSessionRequest | src/start-new-session.tsx:87-101 | the request goes to `<base URL>/sessions` with exactly two headers, the JSON content type and the API key, carrying the built payload |
| StartNewSession.CreateErrorMessage | src/start-new-session.tsx:104-106 | the message is the fixed prefix, then the status text, then `" - "`, then the body, with nothing else |
| StartNewSession.ErrorMessageContainsBoth | src/start-new-session.tsx:106 | the failure message contains both the status text and the body |
| StartNewSession.ErrorMessageKeepsBody | src/start-new-session.tsx:106 | for one status text, different bodies give different messages |
| StartNewSession.SubmitError | src/start-new-session.tsx:86-118 | the caught error is the transport error's message, the formatted message for a non-2xx reply, or the parse error; there is none exactly when a 2xx reply parses |
| StartNewSession.FinalToast | src/start-new-session.tsx:112-118 | the toast ends in Success with the fixed title and message iff the session was created, otherwise Failure with the fixed title and the error message |
| StartNewSession.ServerErrorExample | src/start-new-session.tsx:104-118 | a non-2xx reply with body "boom" ends in a Failure toast whose message contains "boom" |
| StartNewSession.LoadingAfter | src/start-new-session.tsx:83-120 | after effects that never set the flag it keeps its initial value; after a final flag update it has that update's value |
| StartNewSession.LoadingAfterAppend | src/start-new-session.tsx:83-120 | the flag after two runs of effects is the flag after the second run, started from the first run's value |
| StartNewSession.SubmitEffects | src/start-new-session.tsx:82-122 | a submit raises the flag, shows the animated "Creating session..." toast, issues exactly one POST with the built request, and lowers the flag, in that order |
| StartNewSession.SubmitLoadingLifecycle | src/start-new-session.tsx:83-121 | whatever came before, the flag is true when the POST is issued and false once the submit is over |
| StartNewSession.Toast.constructor | src/start-new-session.tsx:84 | the shown toast has the given style and title and no message |
| StartNewSession.NewSessionForm.constructor | src/start-new-session.tsx:39-40 | the form starts not loading, with an empty selection, nothing fetched and no effects |
| StartNewSession.NewSessionForm.ReceiveSources | src/start-new-session.tsx:76-80 | storing a sources response applies the default rule, never overriding a non-empty selection; when the default changes the selection it starts the details fetch of the new selection; nothing else changes |
| StartNewSession.NewSessionForm.OnChange | src/start-new-session.tsx:136 | the pick becomes the selection, and a details fetch starts iff the pick is new and non-empty; the stored details are kept |
| StartNewSession.NewSessionForm.ReceiveSourceDetails | src/start-new-session.tsx:58-73 | the details and the selection they were fetched for are stored, and nothing else changes |
| StartNewSession.NewSessionForm.CurrentDetails | src/start-new-session.tsx:58-64 | the details in use exist iff details are stored, a source is selected and the details were fetched for it; they are then the stored ones |
| StartNewSession.NewSessionForm.Branches | src/start-new-session.tsx:124 | the dropdown offers the branches of the current details, and none while no details, or the details of another source, are stored |
| StartNewSession.NewSessionForm.PreselectedBranch | src/start-new-session.tsx:125 | the preselected branch is the default branch of the current details, and none while no details, or the details of another source, are stored |
| StartNewSession.NewSessionForm.HandleSubmit | src/start-new-session.tsx:82-122 | the effects grow by exactly one submit (flag up, progress toast, one POST of the payload, flag down); the flag ends false on every outcome; the toast ends as the outcome dictates; selection and fetched data are unchanged |

## Left out

- `src/api.ts` is not part of this model: it holds type declarations (mirrored in `Api`), the base URL and a fetch wrapper that no modelled view uses.
- HTTP transport (`useFetch`, `fetch`, `response.text()`, `response.json()`) is left out as foreign I/O. Its results are parameters. A rejection of `response.text()` on the non-2xx path is not modelled.
- JSON serialization (`JSON.stringify`) is left out as a library call. The payload is modelled as a structured value, field for field.
- The `nextPageToken` field is received and never used, so the model does not carry it.
- The `onError` toasts of the three fetches ("Failed to fetch sources/sessions/source details") are left out: they are host notifications with the library's error text.
- Rendering is left out beyond the item data (titles, subtitles, icons, actions). This covers the source dropdown's `owner/repo` labels, the combined `isLoading` spinner props, `useMemo` caching and the menu-bar tooltip.
- `open`, `launchCommand`, the clipboard and `showToast` are host collaborators. They appear only as values (`OpenUrl`, `LaunchCommand`, `CopyToClipboard`, `Toast`).
- `console.log` of the created session is left out.
- Asynchronous ordering is left out: concurrent fetches and interleaving of a second submit with the first.
- `stateColorMap` in src/menu-bar-status.tsx is left out: it is never referenced, and it disagrees with `getStateIcon`.
- MenuBarStatus.ToLower: lower-cases ASCII letters only, because Unicode case mapping is not modelled. Strings are sequences of characters, not UTF-16 code units.
- StartNewSession.NewSessionForm.HandleSubmit: takes the progress toast (src/start-new-session.tsx:84, awaited before the `try`) as always shown; if `showToast` rejected, `isLoading` would stay true and nothing would be posted, and the model does not cover that path.
- StartNewSession.NewSessionForm.CurrentDetails: keeps only the latest details response. `useFetch`'s cache, which can show a previous source's cached details at once on switching back, is not modelled; a switch back refetches.
- StartNewSession.NewSessionForm.HandleSubmit: the in-flight value of `isLoading` is visible only through the ghost effect trace, because the handler runs as one step of the model with the outcome given up front.
- ListSessions.SessionList.ReceiveSources: models the effect running once per new sources response. React's scheduling of it relative to rendering is not modelled.
