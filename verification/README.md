# Bookmark dashboard: verified model

A Dafny model of the logic of a small personal bookmark manager. The page
shows a signed-in user's bookmarks, newest first. It adds a bookmark from a
title and a URL, deletes one after a confirmation, and refreshes the whole
list whenever the backend's change channel reports a change for that user.
A lazily built, process-wide backend client sits underneath.

Modules, one per concern:

- `Common` (`common.dfy`): `Option` and `Result`.
- `Text` (`text.dfy`): ECMAScript `String.prototype.trim`, which removes
  leading and trailing white space. It is modelled here as two index
  searches: a forward search for the first visible character and a backward
  search for the end of the last one. Whitespace is ECMAScript's WhiteSpace
  and LineTerminator code points, listed explicitly.
- `Urls` (`urls.dfy`): the scheme default used before an insert
  (`Normalize`) and the scheme removal used for display (`StripScheme`).
- `Client` (`client.dfy`): `getSupabaseClient` as a two-state slot. A call
  is a transition that returns the new slot and either the handle or an error:
  the accessor's own missing-configuration error, or the exception of a
  constructor that throws. `Calls` runs a sequence of calls.
- `Dashboard` (`dashboard.dfy`): the page state record
  `{bookmarks, user, title, url, loading, submitting, channel}` and one pure
  transition per handler. Each transition returns a `Step`: the new state
  and the events it emitted. Events are backend requests (`Send`), toasts,
  redirects and confirmation questions. Every backend answer (session user,
  query result, insert/delete outcome) is a parameter, so "no request" and
  "exactly one request" are statements about `Requests(step.events)`.
- `Session` (`session.dfy`): a session as a sequence of atomic actions
  (`Run`), with the invariants that hold between actions.

The backend is abstract. A query answers `Rows(rows)`, `NoData` (null data)
or `FetchFailed`. An insert or a delete answers `Written` or `WriteFailed`.

Behaviour of the code that the model keeps as written:

- The scheme test runs on the untrimmed URL, so ` example.com` is sent as
  `https:// example.com`.
- A failed or null query result replaces the list with `[]`, both on load
  and on every change notification (app/dashboard/page.tsx:57, 77).
- The add handler does not itself refuse a second submission while one is
  pending. Only the disabled form controls do that, and they are rendering.
  In `Session` every handler runs to completion inside one action, so
  `submitting` is false between actions (`Session.Consistent`).
- Sign-out sends the sign-out request and redirects. It does not clear the
  local state or remove the channel; only unmounting removes the channel.

## Model

| member | source | states |
|---|---|---|
| `Text.FirstVisible` | app/dashboard/page.tsx:100 | the forward search of `trim`: everything it skips is whitespace, and it stops on a visible character or at the end |
| `Text.VisibleEnd` | app/dashboard/page.tsx:100 | the backward search of `trim`: everything it skips is whitespace, and it stops just after a visible character or at the lower bound |
| `Text.Trim` | app/dashboard/page.tsx:100 | `trim()` is empty exactly when the string is all whitespace, which is the `!s.trim()` test; otherwise the result starts and ends with a visible character |
| `Text.TrimPadded` | app/dashboard/page.tsx:114 | trimming a visible core padded by whitespace returns exactly the core, so only padding is ever removed |
| `Text.TrimIdempotent` | app/dashboard/page.tsx:114 | trimming an already trimmed title changes nothing |
| `Urls.HasScheme` | app/dashboard/page.tsx:106 | the case-sensitive `startsWith` test; a string that passes it is at least seven characters long and begins with `http` |
| `Urls.SchemesExclusive` | app/dashboard/page.tsx:106 | no string starts with both `http://` and `https://` |
| `Urls.Normalize` | app/dashboard/page.tsx:105-108 | the URL sent always starts with a scheme and is the input or the input with 8 characters in front |
| `Urls.NormalizeKeepsIff` | app/dashboard/page.tsx:105-108 | the URL is kept exactly when it already starts with `http://` or `https://`; otherwise it becomes `"https://" + url` |
| `Urls.NormalizeIdempotent` | app/dashboard/page.tsx:105-108 | normalising twice is normalising once |
| `Urls.NormalizeCaseSensitiveUntrimmed` | app/dashboard/page.tsx:106 | an upper-case `HTTP://` or `HTTPS://`, or a leading blank, does not count as a scheme, so these inputs get `https://` in front |
| `Urls.NormalizeExamples` | app/dashboard/page.tsx:105-108 | `example.com` becomes `https://example.com`; `http://example.com` is unchanged |
| `Urls.SchemeOf` | app/dashboard/page.tsx:269 | the prefix the display regex matches is `http://`, `https://` or nothing, it starts the URL, and it is nothing exactly when the URL has no scheme |
| `Urls.StripScheme` | app/dashboard/page.tsx:269 | the displayed text is the URL minus its one matched prefix; it is shorter exactly when the URL has a scheme |
| `Urls.StripSchemeOnce` | app/dashboard/page.tsx:269 | one scheme is removed, not a repeated one: `https://http://x` displays as `http://x` |
| `Urls.DisplayIgnoresNormalize` | app/dashboard/page.tsx:269 | a stored URL displays the same as the text typed for it |
| `Urls.DisplayOfNormalized` | app/dashboard/page.tsx:269 | a URL typed without a scheme is displayed exactly as typed |
| `Client.GetClient` | lib/supabase.ts:33-49 | a call succeeds iff the slot is initialised, or both values are present and non-empty and the constructor returns; missing values throw the accessor's own error, and a throwing constructor passes its exception through; on success the slot holds the returned handle; an error leaves the slot unchanged; an initialised slot is returned unchanged, whatever the environment; a first success builds one handle from the environment values |
| `Client.MissingConfigurationThrows` | lib/supabase.ts:35-40 | an undefined or empty URL or key on a first call throws and stores nothing |
| `Client.RetryAfterConstructorThrows` | lib/supabase.ts:42-46 | a constructor that throws stores nothing, so the next call builds the first client |
| `Client.AtMostOneConstruction` | lib/supabase.ts:34-46 | over any sequence of calls the client is built at most once, and it is built exactly when an instance is stored |
| `Client.InitialisedIsStable` | lib/supabase.ts:34 | once an instance is stored, every later call returns that same instance and the slot never changes |
| `Client.SameClientAfterFirst` | lib/supabase.ts:42-48 | from an uninitialised slot, every successful call returns the instance the run ends with |
| `Client.OneClientPerRun` | lib/supabase.ts:42-48 | all successful calls of a run return the same handle, the first one stored |
| `Dashboard.Load` | app/dashboard/page.tsx:35-81 | with no session user: the events are exactly the user lookup and then the redirect home, and the state is unchanged; with a user: lookup, query for that user and subscription for that user, in that order, with no redirect; the list becomes the fetched snapshot; the load-failure toast appears iff the query failed |
| `Dashboard.LoadedLog` | app/dashboard/page.tsx:36-80 | a signed-in load's events in order: the user lookup, the query, the failure toast only when the query failed, and the subscription last |
| `Dashboard.Snapshot` | app/dashboard/page.tsx:57 | the fallback to `[]` when the query's data is null, also at line 77: fetched rows are kept as they are; null data or a failed query gives the empty list |
| `Dashboard.LoadedLogFacts` | app/dashboard/page.tsx:49-80 | a signed-in load requests exactly the lookup, the query and the subscription; it never redirects; it reports failure iff the query failed |
| `Dashboard.Reconcile` | app/dashboard/page.tsx:70-78 | a change notification issues exactly one query, for the channel's owner; it replaces the list wholesale and changes nothing else; with no channel, nothing happens |
| `PageProperties.ReconcileIdempotent` | app/dashboard/page.tsx:71-77 | re-fetching the same snapshot twice gives the same state as once |
| `Dashboard.CanSubmit` | app/dashboard/page.tsx:100 | a submission is accepted iff a user is signed in and both fields contain a visible character |
| `Dashboard.RowOf` | app/dashboard/page.tsx:112-118 | the insert payload carries the current user's id; its URL has a scheme and is the typed URL, possibly behind `https://`; its title is the trimmed title, empty exactly when the typed title is all whitespace, and otherwise starting and ending with a visible character |
| `Dashboard.BeginAdd` | app/dashboard/page.tsx:100-112 | a rejected submission shows the fill-in toast, sends nothing and changes nothing; an accepted one sends exactly one insert, marks the form submitting, and changes nothing else |
| `Dashboard.FinishAdd` | app/dashboard/page.tsx:120-128 | after the insert answers, the form stops submitting; success clears both fields and failure keeps them; the list, user and channel are untouched; nothing further is sent |
| `Dashboard.AddBookmark` | app/dashboard/page.tsx:95-129 | the whole add: no request and no state change when rejected; exactly one insert of `RowOf` when accepted; submitting ends false; fields cleared on success and kept on failure; nothing else in the state, `loading` and the list included, ever changes |
| `PageProperties.AddBareHost` | app/dashboard/page.tsx:105-118 | a host with no scheme and no surrounding whitespace, such as `example.com` or `hn.com`, is sent with `https://` in front |
| `PageProperties.AddHttpHost` | app/dashboard/page.tsx:105-118 | any text typed behind `http://`, blank or padded included, is accepted and sent unchanged |
| `PageProperties.SubmitsAsTyped` | app/dashboard/page.tsx:105-118 | a title and URL without surrounding whitespace are sent as the title and the normalised URL |
| `PageProperties.AddEmptyFieldSendsNothing` | app/dashboard/page.tsx:100-103 | an empty title or URL sends no request and leaves the state unchanged |
| `Dashboard.DeletePrompt` | app/dashboard/page.tsx:135 | the confirmation question holds the bookmark's title verbatim after `Delete "` and ends with `?` |
| `Dashboard.RemoveBookmark` | app/dashboard/page.tsx:131-144 | the confirmation question naming the bookmark always comes first; declined, nothing else happens; accepted, exactly one delete for the id is sent and its outcome is reported; the state, list included, is never changed |
| `Dashboard.EditTitle` | app/dashboard/page.tsx:198-200 | typing sets the title and nothing else |
| `Dashboard.EditUrl` | app/dashboard/page.tsx:211-213 | typing sets the URL and nothing else |
| `Dashboard.LeaveSession` | app/dashboard/page.tsx:90-93 | sign-out sends exactly the sign-out request, ends with the redirect home, and changes no state |
| `Dashboard.Unmount` | app/dashboard/page.tsx:85-87 | cleanup removes the channel iff one was opened, and changes nothing else |
| `Session.InitialConsistent` | app/dashboard/page.tsx:23-28 | the mount-time state satisfies the between-actions invariant |
| `Session.ApplyConsistent` | app/dashboard/page.tsx:44-60 | every action keeps these true: no submission pending; loading ended iff a user is known; an open channel belongs to that user |
| `Session.RunConsistent` | app/dashboard/page.tsx:44-60 | the invariant holds after any sequence of actions |
| `Session.ListComesFromStore` | app/dashboard/page.tsx:49-77 | the list changes only to the snapshot of a query answer; that query was issued in the same step, for the signed-in user |
| `Session.ListUnchangedWithoutFetch` | app/dashboard/page.tsx:110-143 | adding, deleting, typing, signing out and unmounting never change the list |
| `Session.OwnershipKept` | app/dashboard/page.tsx:49-53 | in a run where only `owner` signs in, and the store honours the owner filter of every query, the list never holds a bookmark of another user |
| `Session.ApplyKeepsOwnership` | app/dashboard/page.tsx:49-77 | one action keeps the list owned by whoever is signed in, provided the answer to the query it issues honours that query's owner (the mounted user, or the channel's owner) |
| `Session.RunKeepsOwnership` | app/dashboard/page.tsx:49-77 | over any run, even one where different users sign in, the list holds only the signed-in user's bookmarks, provided the store honours every query's owner filter |
| `Session.LastFetchWins` | app/dashboard/page.tsx:70-78 | after a change notification on an open channel, the list equals the snapshot just fetched, whatever came before |
| `Session.UnauthenticatedMountQueriesNothing` | app/dashboard/page.tsx:39-42 | mounting with no session user requests only the user lookup, issues no query or subscription, and changes no state |

## Left out

- Rendering, Tailwind classes, icons and the toast library are not modelled. A toast is only an event carrying its kind and text.
- The backend's query, insert, delete, auth and realtime calls are not modelled. They are request events, and their answers are transition parameters.
- `createClient` is a foreign constructor. Whether it returns or throws on a call is a flag of that call's `Client.Env`, and what it checks about the URL and key is not modelled. A handle records only the configuration it was built from and a serial number.
- `router.replace` is a `Redirect` event, and `confirm()` is a boolean parameter plus a `Confirm` event carrying its question.
- Asynchronous interleaving is not modelled: results arriving after unmount, a notification during a pending insert, an unmount before the channel exists. The code does nothing to guard against these, and each `Session` action runs one handler to completion.
- The add handler's `e.preventDefault()` is not modelled: it is a browser event call with no state.
- `app/page.tsx` is not part of this model: it only starts the sign-in redirect.
- Which `Client` instance the dashboard uses is not modelled. The page imports a `supabase` export that the client file does not define, so the page talks to an abstract backend, and `Client` models the accessor as written.
- The email stored with the user is display data and is carried through unchanged.
- `Text.Whitespace` lists the current Unicode space separators. A later Unicode version could add code points that this list does not have.
