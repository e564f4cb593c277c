# GameVault client state, in Dafny

GameVault is a single-page app for keeping a video-game library. After logging
in or signing up, the user sees one page of game entries. That page is
filtered by status and platform, searched by title, and paginated. The user can
add, edit, delete and star ("favourite") entries. This project models the
client-side logic of that app:

- `Query` — the list request's query string (`buildQuery`) and the page count
  (`totalPages`).
- `GameVault` — the `Vault` class: the state of the `GameVault` component
  (`games`, `page`, `limit`, `total`, the two filters, the search text `q`,
  `loading`, `error`, the add modal's visibility).
  - Its handlers: fetch and reconcile, the filter/size/search changes and the
    list effect they trigger, previous/next page, save (create or update),
    delete with the step back from an emptied page, and the optimistic
    favourite toggle with rollback or merge by id.
  - The list transformations the toggle uses (`Flip`, `Merge`, `FindById`), as
    functions with lemmas.
- `Payload`, `AddGameForm`, `GameCard` — the add form and the card editor.
  - Title trimming and the non-blank rule, coercion of the hours, the payload
    handed on, the reset to defaults, edit mode, and the status badge classes.
- `Text` — JavaScript's `trim` and the "blank" test.
- `AuthApi`, `Signup`, `Login` — the two auth pages.
  - Signup's ordered checks, where the first failing one gives the message.
  - Register-then-login, and the choice between the server's message and a
    fallback.
- `Scenarios` — client methods showing what the contracts let a caller
  conclude: deleting the last row of page 3 of 17 entries at 8 per page
  re-fetches page 2; a failed toggle restores the entry; creating from page 5
  asks for page 1.

How I/O is represented:

- **Network replies are parameters.** Each handler takes the settled reply of
  every request it sends:
  - `Outcome<T>` is either `Success(value)` or `Failure(status)`, where the
    status is absent when no response arrived;
  - `AuthReply` is an answered reply with its status and JSON body, or
    `NoReply`.
- **Side effects are out-parameters.** Each handler returns what it does
  outside its own state:
  - the requests it sends, in order (`issued`, `effects`);
  - the alert text (`notice`);
  - the payload handed to `onAddGame` / `onSave` (`submitted`, `saved`);
  - the token handed to `login` (`StoreToken`).
- **The delete confirmation is a parameter** (`confirmed`).
- **The list effect is explicit.** React runs an effect on
  `[page, limit, statusFilter, platformFilter, q]`. It is modelled as
  `RunListEffect`: after a handler, if those settings changed, one list request
  is sent with the new settings and its reply is reconciled.

Behaviour kept as the code has it:

- **No request-generation counter.** Nothing stops a late list reply from
  overwriting a newer one. The model runs each handler to completion with the
  replies it is given and claims nothing about stale replies.
- **A failed refresh.** It sets `error` and keeps the previous `games` and
  `total` in state. The component then renders the error message instead of
  the list.
- **The list response shape is `{ data, meta: { total } }`.** A `data` that is
  not an array gives `[]`. A missing or falsy `meta.total` gives 0.
- **Hours may be negative.** `Number(x) || 0` replaces only NaN (written
  `None`) by 0, so negative hours pass through the card editor, whose save
  is a click handler and not a form submission. In the add form the
  browser's validation of `min="0"` and the integer step blocks `submit`
  before `handleSubmit` runs; that validation is DOM behaviour and is not
  modelled (see "## Left out").
- **Entries without an id.** `handleSaveGame` decides update vs create by
  comparing ids, and an absent id equals another absent id. So a payload
  without an id would be sent as an update if the page held an entry without
  an id. Entries from the server always carry an id. `ExistsLocally` keeps
  this comparison as written.
- **Delete success.** The delete handler treats `res.ok || res.status === 204`
  as success (`Deleted`).

## Model

| member | source | states |
|---|---|---|
| `Text.Trim` | src/components/AddGameForm.jsx:18 | the trimmed title neither starts nor ends with white space and is no longer than the input |
| `Text.TrimRemovesOnlySpace` | src/components/AddGameForm.jsx:24 | `trim` removes white space from the two ends only: the result is a slice of the input between an all-space prefix and an all-space suffix |
| `Text.TrimEmptyIffBlank` | src/components/GameCard.jsx:44 | `!title.trim()` holds exactly when every character of the title is white space, which is how the forms' blank test is stated |
| `Text.TrimIdempotent` | src/components/GameCard.jsx:45 | trimming an already trimmed title changes nothing |
| `Query.Pick` | src/components/GameVault.jsx:40-44 | `opts.x ?? x`: a present override, otherwise the state's value |
| `Query.Effective` | src/components/GameVault.jsx:40-44 | the five settings one request uses once the overrides are applied |
| `Query.Narrows` | src/components/GameVault.jsx:46-47 | `v && v !== 'all'`: a filter value that restricts the list |
| `Query.BuildQuery` | src/components/GameVault.jsx:38-52 | each key appears at most once; `page` and `limit` always appear; `status`/`platform` never carry `all` or an empty value; `q` is never empty |
| `Query.LookupParts` | src/components/GameVault.jsx:46-50 | read back key by key, the four parts of the query give each key what the settings say and nothing to any other key |
| `Query.LookupQuery` | src/components/GameVault.jsx:38-52 | for every key, the built query reads back exactly what the effective settings give it: a filter only when it narrows, the search only when non-empty, page and size always, nothing for any other key |
| `Query.QueryReflectsSettings` | src/components/GameVault.jsx:46-50 | read back key by key, the query gives each filter only when it narrows, the search only when non-empty, and always the effective page and size |
| `Query.QueryHasOnlySettingKeys` | src/components/GameVault.jsx:46-50 | the query carries no key besides `status`, `platform`, `q`, `page` and `limit`; with unique keys and the read-back lemmas this fixes the query up to order |
| `Query.OverridesWin` | src/components/GameVault.jsx:40-44 | each present override decides its parameter; each absent one falls back to the state's value |
| `Query.PageOverrideMatchesCommittedPage` | src/components/GameVault.jsx:144-145 | fetching with a page override builds the same request as fetching after committing that page |
| `Query.TotalPages` | src/components/GameVault.jsx:110 | the page count is at least 1 and is the least such count whose pages hold all `total` rows (`max(1, ceil(total/limit))`) |
| `GameVault.Flip` | src/components/GameVault.jsx:188 | same length, order and ids; entries with the target id have only `favorite` inverted; all others unchanged |
| `GameVault.Merge` | src/components/GameVault.jsx:202 | same length and order; exactly the entries with the returned entry's id are replaced by it |
| `GameVault.FindById` | src/components/GameVault.jsx:191-192 | returns the first entry with the id, and nothing exactly when no entry has it |
| `GameVault.FlipAbsentIsIdentity` | src/components/GameVault.jsx:188-192 | flipping an id that no entry carries leaves the list unchanged, so the early return shows the list as it was |
| `GameVault.MergePresentIsNoop` | src/components/GameVault.jsx:202 | with unique ids, merging an entry that is already in the list changes nothing |
| `GameVault.FlipInvolutive` | src/components/GameVault.jsx:188 | flipping twice restores the list, so rolling back and flipping again agree |
| `GameVault.MergeEchoKeepsOptimistic` | src/components/GameVault.jsx:187-202 | with unique ids, merging a server echo of the sent entry leaves the optimistic list as shown |
| `GameVault.ExistsLocally` | src/components/GameVault.jsx:115 | `games.some((g) => g.id === id)`: some entry on the current page carries the id, an absent id matching an absent one |
| `GameVault.SaveRequest` | src/components/GameVault.jsx:115-136 | an update of the same id with the whole entry exactly when the entry is on the page; otherwise a creation from the entry with its id removed |
| `GameVault.PageData` | src/components/GameVault.jsx:77 | the entries of a list reply: its `data` when that is an array, `[]` otherwise |
| `GameVault.PageTotal` | src/components/GameVault.jsx:78 | the row count of a list reply: `meta.total`, or 0 when it is missing or falsy |
| `GameVault.Deleted` | src/components/GameVault.jsx:162 | a DELETE succeeded when the reply is 2xx or its status is 204 |
| `GameVault.AllowedLimit` | src/components/GameVault.jsx:260-262 | the page sizes the size select offers: 4, 8 and 12 |
| `GameVault.DeleteFailureMessage` | src/components/GameVault.jsx:172-181 | distinct alerts for 401, for 403, for any other status and for a network failure, each given exactly in its case |
| `GameVault.Vault.constructor` | src/components/GameVault.jsx:22-35 | mount state: no entries, total 0, status and platform `all`, page 1, 8 per page, empty search, not loading, no error, modal closed |
| `GameVault.Vault.FetchGames` | src/components/GameVault.jsx:62-85 | one list request built from the settings and overrides; on success entries = response data (or `[]`), total = `meta.total` (or 0), error cleared; on failure entries and total kept and the error set; loading false; settings untouched |
| `GameVault.Vault.RunListEffect` | src/components/GameVault.jsx:88-90 | re-fetches with the current settings exactly when they differ from those before the handler; otherwise sends nothing and changes nothing |
| `GameVault.Vault.Refresh` | src/components/GameVault.jsx:93-108 | a login/logout signal (or mount) re-fetches with the page unchanged |
| `GameVault.Vault.SetStatusFilter` | src/components/GameVault.jsx:225-228 | the status filter takes the value, page becomes 1, other settings kept, then the list effect runs |
| `GameVault.Vault.SetPlatformFilter` | src/components/GameVault.jsx:239-242 | the platform filter takes the value, page becomes 1, other settings kept, then the list effect runs |
| `GameVault.Vault.SetLimit` | src/components/GameVault.jsx:254-257 | the page size takes one of the allowed sizes, page becomes 1, other settings kept, then the list effect runs |
| `GameVault.Vault.SetSearch` | src/components/GameVault.jsx:271-274 | the search text takes the value, page becomes 1, other settings kept, then the list effect runs |
| `GameVault.Vault.PrevPage` | src/components/GameVault.jsx:324-326 | no change on page 1, otherwise one page back; the page never goes below 1 |
| `GameVault.Vault.NextPage` | src/components/GameVault.jsx:331-333 | no change on or past the last page, otherwise one page on; the page never passes the page count |
| `GameVault.Vault.OpenAddModal` | src/components/GameVault.jsx:210 | the add modal is shown |
| `GameVault.Vault.SaveGame` | src/components/GameVault.jsx:113-152 | an entry already on the page is PUT and the current page re-fetched unchanged; otherwise it is POSTed without id, page becomes 1 and page 1 fetched; a failure sends nothing more, keeps page and list, alerts, and leaves the modal; only success closes it |
| `GameVault.Vault.DeleteGame` | src/components/GameVault.jsx:154-183 | nothing without confirmation; after success the page steps back by one if the deleted row was the page's last and page > 1, and the request carries that page; otherwise same page; a failure keeps page and list and gives its alert |
| `GameVault.Vault.ToggleFavorite` | src/components/GameVault.jsx:186-208 | shows the flipped list at once; sends nothing if no entry has the id; otherwise PUTs the flipped entry, restores the exact previous list on failure and merges the returned entry by id on success |
| `Common.HoursOrZero` | src/components/AddGameForm.jsx:27 | the typed number, or 0 when `Number(h)` gives NaN |
| `Payload.Normalize` | src/components/AddGameForm.jsx:23-29 | the payload keeps the given id (none for a new entry), has the trimmed non-empty title with no space at either end, hours = the number or 0, other fields as chosen |
| `Payload.NormalizedTitleStable` | src/components/GameCard.jsx:45 | the title handed on is a fixed point of trimming and is not blank |
| `AddGameForm.Form.constructor` | src/components/AddGameForm.jsx:8-13 | the fields start at `''`, `PS5`, `backlog`, 0, not favourite, no error |
| `AddGameForm.Form.HandleSubmit` | src/components/AddGameForm.jsx:16-39 | a blank title sets `Le titre est obligatoire`, hands nothing on and keeps every field; otherwise hands on exactly one payload without id and resets the fields to the starting defaults with the error cleared |
| `GameCard.StatusClasses` | src/components/GameCard.jsx:3-8 | backlog, playing and finished get their own classes; exactly the other values get the default |
| `GameCard.StatusClassesDistinct` | src/components/GameCard.jsx:3-8 | two statuses share badge classes only if equal or both unknown |
| `GameCard.Card.constructor` | src/components/GameCard.jsx:24-30 | a card starts outside edit mode with the edit fields holding the entry's values |
| `GameCard.Card.StartEdit` | src/components/GameCard.jsx:32-39 | copies the entry's title, platform, status, hours and favourite into the edit fields and enters edit mode |
| `GameCard.Card.CancelEdit` | src/components/GameCard.jsx:41 | leaves edit mode and changes nothing else (nothing is saved) |
| `GameCard.Card.SaveEdit` | src/components/GameCard.jsx:43-48 | a blank title alerts, saves nothing and keeps the mode; otherwise hands on once the entry with the same id, trimmed title, coerced hours and the edit fields, and leaves edit mode |
| `AuthApi.ServerErrorOr` | src/pages/Signup.jsx:42 | the server's non-empty `error` wins; otherwise the fallback is shown |
| `AuthApi.IsOk` | src/pages/Login.jsx:39 | `res.ok`: the status is in 200–299 |
| `AuthApi.Decimal` | src/pages/Signup.jsx:42 | the status printed in decimal: digits only, no leading zero, and they read back as the status |
| `Signup.RegisterFailed` | src/pages/Signup.jsx:42 | `Erreur inscription (${status})`: the fixed prefix, digits that read back as the status, then `)` |
| `Signup.Validate` | src/pages/Signup.jsx:25-30 | no message exactly when name and email are non-blank, the password has at least 6 characters and matches its confirmation |
| `Signup.FirstFailingCheckWins` | src/pages/Signup.jsx:25-30 | each message is given exactly when its check fails and all earlier checks pass |
| `Signup.SixCharacterPasswordPasses` | src/pages/Signup.jsx:28-30 | a matching 6-character password passes |
| `Signup.SignupPage.constructor` | src/pages/Signup.jsx:11-16 | empty fields, not loading, no error |
| `Signup.SignupPage.Register` | src/pages/Signup.jsx:32-71 | with the error cleared: registration is sent; its failure shows the server's error or the status fallback and stops; otherwise login is sent, its failure shows its error or the fixed fallback, its success hands the token on with no error; loading ends false |
| `Signup.SignupPage.HandleSubmit` | src/pages/Signup.jsx:20-72 | a failed check sets its message with no request and `loading` untouched; a failed registration shows its error or the status fallback and no login is sent; login is sent only after a successful registration; its failure shows its error or the fixed fallback; success hands the token to `login` with no error; loading ends false |
| `Login.Validate` | src/pages/Login.jsx:20-23 | a message exactly when email or password is empty, and it is the required-fields message |
| `Login.LoginPage.constructor` | src/pages/Login.jsx:12-15 | empty fields, not loading, no error |
| `Login.LoginPage.HandleSubmit` | src/pages/Login.jsx:17-54 | an empty field sets the required-fields message with no request and `loading` untouched; otherwise one login request; a failed reply shows the server's error or `Échec de la connexion`; no reply gives the network message; success hands the token to `login` with no error; loading ends false |

## Left out

- Network calls, JSON parsing, request headers and the bearer token
  (`getAuthHeaders`, `localStorage`), `console`, `alert` (returned as a
  notice), `window.confirm` (a parameter) and `navigate`. These are browser
  I/O.
- `src/auth/AuthProvider.jsx`: token storage and the `user:login` /
  `user:logout` events. Only the vault's reaction is modelled (`Refresh`).
  `src/App.jsx` and `src/auth/ProtectedRoute.jsx`: routing. These files are
  not part of this model.
- Asynchronous interleaving. Each handler runs to completion with the replies
  it is given, so the transient `loading = true` is not observable in the
  model: the contracts give only the final `loading`. The toggle's optimistic
  list is returned as the `shown` out-parameter.
- After create (when the page was not 1) and after the delete step-back, the
  page change also triggers the list effect, which sends the same query a
  second time. Only the handler's explicit fetch is modelled.
- Rendering: the list and pagination are hidden while loading or when `error`
  is set, so the card and pagination handlers are not reachable then. The
  model does not restrict those calls. A disabled Prev/Next button is modelled
  as a handler that does nothing.
- Closing the add modal by clicking its backdrop, and JSX markup and CSS
  classes other than the status badge.
- The inputs' `onChange` handlers: they assign one field each and are direct
  field assignments here, not members. The add form renders no favourite
  input, so its `favorite` keeps its default `false` in practice.
- The browser's constraint validation of the add form (`min="0"` and the
  integer step on the hours input): a value it rejects keeps `submit` from
  firing, while `AddGameForm.Form.HandleSubmit` accepts any hours. `Number()` on arbitrary strings and
  floats: numbers are integers, with `None` for NaN.
- Card props are fixed for the life of a `Card`. React may pass new props to
  a mounted card; `StartEdit` copies whatever the props are.
- Password length counts Unicode scalar values. JavaScript's `length` counts
  UTF-16 code units.
