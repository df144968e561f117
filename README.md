# Glitch-flavour profile views, account search and default-skin migration, in Dafny

This project models the pieces of the glitch-soc web client and server that hold
sequential logic:

- the **account-search session** behind the list editor (`useSearchAccounts`): a
  loading state (`idle`, `loading`, `error`), the ids of the last result, and a
  single live-request reference. Each new query aborts the held request first.
  Every request settles through its `.then` or `.catch` callback. An aborted request
  does too.
- the **profile header** (`AccountHeader`): the page title, the local/remote test
  and the robots directive, the gating of the header image, avatar and bio on a
  suspended or hidden account, and the avatar click guard;
- the **profile name block** (`AccountName`): splitting `acct` at `@` with the
  instance domain as default, and the displayed handle;
- the **follower/following list column** (`AccountList`): the child rows, the
  forced empty state, the `hasMore`/`isLoading` defaults and the routing on a
  null or undefined account id;
- the **profile fields** (`AccountHeaderFields`): the verified/link/none icon
  precedence and the card per field;
- the **default-skin data migration** (`GlitchMigrateDefaultSkinSetting`): a
  guarded rewrite of the `skin` row of the settings table.

Files: `strings.dfy` (an `Option` type, and the JavaScript `trim`/`split`/`includes`
built-ins and Ruby `present?` the code relies on), `accounts.dfy` (the account
record the views read), `search_accounts.dfy`, `account_header.dfy`,
`account_name.dfy`, `followers_list.dfy`, `fields.dfy`, `skin_migration.dfy`.

The search session is a class, `SearchAccounts.SearchSession`. Its fields are the
hook's state, the issued requests and a log of outside calls (abort, `GET`, store
import, `onSettled`). `Dispatch`, `ResolveSuccess` and `ResolveFailure` are its
methods. The caller picks the order in which requests settle; that choice stands in
for asynchrony. The object invariant `Valid()` keeps three facts:

- the reference always holds the newest request;
- only that request can still be pending;
- the shown ids are those of the most recent import, and there are none before the first success.

The scenario methods at the end of the file drive a session through four runs: a
search that succeeds, a superseded query, a failure then a retry, and a clear during
a search. The migration's settings table is also a class, `SkinMigration.SettingsTable`.
Its `Up` is proved against the pure functions `UpOutcome` and `UpRows`. The lemmas
about migration behaviour are stated on those two functions. Everything else is pure
functions and lemmas.

Two consequences of the hook's code show up in the scenarios:

- a blank query leaves the loading state and the ids as they were;
- an aborted request's rejection runs `.catch`, which sets `error` and calls
  `onSettled` with the old query, even while a newer request is loading
  (`SupersededQuery`, `ClearWhileLoading`).

## Model

| member | source | states |
|---|---|---|
| `SearchAccounts.SearchSession.constructor` | app/javascript/flavours/glitch/features/lists/use_search_accounts.ts:17-22 | a new session is idle, has no ids (undefined), holds no request and has made no calls |
| `SearchAccounts.SearchSession.AbortLive` | app/javascript/flavours/glitch/features/lists/use_search_accounts.ts:26-28 | when a controller is held, `abort()` is called on it and its request, if still pending, becomes aborted; nothing else changes |
| `SearchAccounts.SearchSession.Dispatch` | app/javascript/flavours/glitch/features/lists/use_search_accounts.ts:25-45 | the held request is aborted first; a blank (whitespace-only) value makes no request, notifies `onSettled('')` and keeps state and ids; any other value sets `loading` and issues `GET v1/accounts/search` with the untrimmed `q` and `resolve = true`, which becomes the only live request |
| `SearchAccounts.SearchSession.SettleCleared` | app/javascript/flavours/glitch/features/lists/use_search_accounts.ts:30-33 | the blank path only calls `onSettled('')` (when given); state, ids and requests are unchanged |
| `SearchAccounts.SearchSession.Issue` | app/javascript/flavours/glitch/features/lists/use_search_accounts.ts:35-45 | state becomes `loading`, a fresh request with the value is installed as the held one, and the `GET` call is recorded with that request as its signal |
| `SearchAccounts.SearchSession.ResolveSuccess` | app/javascript/flavours/glitch/features/lists/use_search_accounts.ts:46-51 | only the live request can succeed; its accounts are imported, the ids become theirs in response order, state becomes `idle`, and `onSettled` receives that request's own query |
| `SearchAccounts.SearchSession.ResolveFailure` | app/javascript/flavours/glitch/features/lists/use_search_accounts.ts:52-55 | a pending or aborted request's failure sets `error` and notifies `onSettled` with its query; the ids are unchanged |
| `SearchAccounts.SearchSession.IsLoading` | app/javascript/flavours/glitch/features/lists/use_search_accounts.ts:64-65 | `isLoading` and `isError` are never both true |
| `SearchAccounts.SearchSession.IsError` | app/javascript/flavours/glitch/features/lists/use_search_accounts.ts:65 | `isError` never holds while the state is `loading` |
| `SearchAccounts.Ids` | app/javascript/flavours/glitch/features/lists/use_search_accounts.ts:48 | the ids are the accounts' ids, same length, same order |
| `SearchAccounts.AfterAbort` | app/javascript/flavours/glitch/features/lists/use_search_accounts.ts:27 | aborting touches only the held request: a pending held request becomes aborted (and can still fail into `.catch`), abort never settles a request nor unsettles one, and no request is pending that was not pending before |
| `SearchAccounts.LastImport` | app/javascript/flavours/glitch/features/lists/use_search_accounts.ts:17 | there is no import exactly when no import call was logged; otherwise the result is one logged import's data |
| `SearchAccounts.LastImportSkips` | app/javascript/flavours/glitch/features/lists/use_search_accounts.ts:17 | calls other than imports do not change which result is shown, so the ids stay undefined until the first success |
| `SearchAccounts.LastImportAfter` | app/javascript/flavours/glitch/features/lists/use_search_accounts.ts:47-50 | after an import and the `onSettled` call, the shown result is that import's data |
| `SearchAccounts.SearchThenSuccess` | app/javascript/flavours/glitch/features/lists/use_search_accounts.ts:39-51 | searching `abc` and receiving accounts 1 and 2 yields ids `["1","2"]`, idle, no error, and exactly the calls GET, import of those accounts, `onSettled('abc')` |
| `SearchAccounts.SupersededQuery` | app/javascript/flavours/glitch/features/lists/use_search_accounts.ts:26-55 | `abc` then `abcd`: the first request is aborted and the state is loading; its rejection shows an error; `abcd`'s answer then shows its ids, idle |
| `SearchAccounts.FailureThenRetry` | app/javascript/flavours/glitch/features/lists/use_search_accounts.ts:46-55 | a failure shows an error with ids still undefined; a later successful search shows its ids and is idle |
| `SearchAccounts.ClearWhileLoading` | app/javascript/flavours/glitch/features/lists/use_search_accounts.ts:26-33 | clearing during a search issues no request and keeps `loading`; the aborted request's rejection then gives `error`; the calls are GET, abort, `onSettled('')`, `onSettled('abc')` |
| `Strings.Trim` | app/javascript/flavours/glitch/features/lists/use_search_accounts.ts:30 | `trim()` drops a whitespace-only prefix and then a whitespace-only suffix; what is left is a contiguous slice of the input that is empty or starts and ends with non-whitespace |
| `Strings.Truthy` | app/javascript/flavours/glitch/features/account_timeline/components/account_header.tsx:106 | a nullable string is truthy exactly when it is present and non-empty |
| `Strings.RubyPresent` | db/migrate/20260209142401_glitch_migrate_default_skin_setting.rb:12 | `present?` fails on `nil`, holds only for a non-empty string, and fails on a string exactly when every character is `[[:space:]]` (so a whitespace-only value is blank) |
| `Strings.TrimEmptyIff` | app/javascript/flavours/glitch/features/lists/use_search_accounts.ts:30 | `value.trim().length === 0` holds exactly when every character is JavaScript whitespace |
| `Strings.Split` | app/javascript/flavours/glitch/features/account_timeline/components/account_name.tsx:29 | `split('@')` yields at least one piece and no piece contains `@` |
| `Strings.JoinSplit` | app/javascript/flavours/glitch/features/account_timeline/components/account_name.tsx:29 | joining the pieces with `@` gives back the input |
| `Strings.SplitJoin` | app/javascript/flavours/glitch/features/account_timeline/components/account_name.tsx:29 | pieces free of `@`, joined and split again, are recovered |
| `Strings.SplitSingleIff` | app/javascript/flavours/glitch/features/account_timeline/components/account_header.tsx:100 | a string splits into one piece exactly when it does not contain `@`, and that piece is the string |
| `AccountHeader.TitleFromAccount` | app/javascript/flavours/glitch/features/account_timeline/components/account_header.tsx:38-48 | the title is the name, then ` (@`, then the title handle, then `)` |
| `AccountHeader.TitleAcct` | app/javascript/flavours/glitch/features/account_timeline/components/account_header.tsx:40-43 | a local account's title handle (acct equal to username) is one character longer than username and local domain together and splits back into them; any other acct is used verbatim |
| `AccountHeader.TitlePrefix` | app/javascript/flavours/glitch/features/account_timeline/components/account_header.tsx:44-45 | the title's name is the username when the display name is empty or all whitespace, otherwise the display name untrimmed |
| `AccountHeader.TitleAcctIsSplitHandle` | app/javascript/flavours/glitch/features/account_timeline/components/account_header.tsx:40-43 | for a local account (acct equal to username) the title handle is `username@localDomain`; for a remote `user@domain` it is the acct verbatim; both equal the split handle rejoined |
| `AccountHeader.TitleShowsDisplayedHandle` | app/javascript/flavours/glitch/features/account_timeline/components/account_header.tsx:38-48 | the title is `name (` + the handle the name block displays + `)` |
| `AccountHeader.IsLocal` | app/javascript/flavours/glitch/features/account_timeline/components/account_header.tsx:100 | an acct is local exactly when it splits at `@` into a single piece |
| `AccountHeader.RobotsFor` | app/javascript/flavours/glitch/features/account_timeline/components/account_header.tsx:245 | robots may index (`all`) exactly when the acct has no `@` (equivalently, splits into one piece) and the account is not `noindex`; otherwise `noindex` |
| `AccountHeader.SuspendedOrHidden` | app/javascript/flavours/glitch/features/account_timeline/components/account_header.tsx:99 | `suspendedOrHidden` holds exactly when the account is hidden or suspended |
| `AccountHeader.IsMe` | app/javascript/flavours/glitch/features/account_timeline/components/account_header.tsx:101 | `isMe` implies the name block's `isSelf`, and `isSelf` implies `isMe` for a non-empty id (an empty `me` is falsy) |
| `AccountHeader.RenderHeader` | app/javascript/flavours/glitch/features/account_timeline/components/account_header.tsx:95-97 | nothing is rendered exactly when the account is missing |
| `AccountHeader.SuspendedOrHiddenGating` | app/javascript/flavours/glitch/features/account_timeline/components/account_header.tsx:99-238 | a hidden or suspended account has no header image, no avatar account, no bio block, no familiar followers and no follow-request note; otherwise the image is `header` under autoplay and `header_static` without it, the avatar and bio show, familiar followers show unless `isMe`, the note shows exactly to a signed-in viewer on another account, and the follow-request note exactly for a pending request to an account that has not moved; the memorial note, the moved note and the tabs need the account not hidden (the tabs also not `hideTabs`); the info badge shows exactly when `me` is not the account, a relationship is known and the layout is classic |
| `AccountHeader.HandleOpenAvatar` | app/javascript/flavours/glitch/features/account_timeline/components/account_header.tsx:63-86 | the default is prevented exactly on a primary click without ctrl or meta; the image modal opens exactly then and only with an account, showing its avatar with empty alt text |
| `AccountName.SplitAcct` | app/javascript/flavours/glitch/features/account_timeline/components/account_name.tsx:29 | the username never contains `@`; without `@` the result is the acct and the local domain; with `@` the acct starts with `username@domain` followed by nothing or another `@` |
| `AccountName.SplitAcctRemote` | app/javascript/flavours/glitch/features/account_timeline/components/account_name.tsx:29 | `u@d` splits into `u` and `d` |
| `AccountName.SplitAcctTrailingAt` | app/javascript/flavours/glitch/features/account_timeline/components/account_name.tsx:29 | a trailing `@` yields an empty domain, not the local one |
| `AccountName.SplitAcctDropsRest` | app/javascript/flavours/glitch/features/account_timeline/components/account_name.tsx:29 | pieces after a second `@` are dropped |
| `AccountName.Handle` | app/javascript/flavours/glitch/features/account_timeline/components/account_name.tsx:67 | the redesigned handle is `@` followed by the username and domain joined by `@`, two characters longer than both |
| `AccountName.HandleRoundTrip` | app/javascript/flavours/glitch/features/account_timeline/components/account_name.tsx:67 | the displayed `@username@domain`, read back without its leading `@`, splits into the same username and domain |
| `AccountName.IsSelf` | app/javascript/flavours/glitch/features/account_timeline/components/account_name.tsx:43 | `isSelf` (also passed at line 71) holds exactly when `me` is present and equal to the account id |
| `AccountName.RenderAccountName` | app/javascript/flavours/glitch/features/account_timeline/components/account_name.tsx:25-78 | nothing without an account; otherwise the layout follows the redesign flag and the domain pill gets the split handle and `isSelf` exactly when `me` is the account id; the redesign shows `Handle` of the split acct; the classic layout shows `@username` visibly, `@domain` invisibly, and the lock icon exactly when the account is locked |
| `AccountName.LayoutsShowSameHandle` | app/javascript/flavours/glitch/features/account_timeline/components/account_name.tsx:36-67 | the classic layout's `@username` plus its invisible `@domain` is the redesigned handle, with the same pill |
| `FollowerList.ForceEmptyState` | app/javascript/flavours/glitch/features/followers/components/list.tsx:49 | the empty state is not forced exactly when the viewer is not blocked and the account is neither hidden nor suspended |
| `FollowerList.IsChildList` | app/javascript/flavours/glitch/features/followers/components/list.tsx:51-66 | in rows that fit the description, the only minimal row is the first one, and only when the prepended id is truthy |
| `FollowerList.ChildListUnique` | app/javascript/flavours/glitch/features/followers/components/list.tsx:51-66 | the row description (empty when forced; otherwise the truthy prepended id as a minimal row, then the items in order) determines the rows |
| `FollowerList.BuildChildren` | app/javascript/flavours/glitch/features/followers/components/list.tsx:51-66 | the rows are empty when the empty state is forced; otherwise there are `|items| + (prepend ? 1 : 0)` of them, the prepended one first, then the items in order, with a missing list counting as no items |
| `FollowerList.HasMore` | app/javascript/flavours/glitch/features/followers/components/list.tsx:99 | `hasMore` is true exactly when not forced and the list says so; it is undefined exactly when not forced and there is no list |
| `FollowerList.IsLoading` | app/javascript/flavours/glitch/features/followers/components/list.tsx:100 | loading when the list is missing, else the list's flag |
| `FollowerList.RemoteDomain` | app/javascript/flavours/glitch/features/followers/components/list.tsx:88 | absent exactly for an acct without `@`; otherwise the domain the name block splits off |
| `FollowerList.RenderAccountList` | app/javascript/flavours/glitch/features/followers/components/list.tsx:75-110 | a null id gives the routing error; an undefined or empty id or a missing account gives the loading indicator; otherwise the column has the rows, `hasMore`, `isLoading`, and `append` or a remote hint with the domain and url |
| `Fields.FieldIcon` | app/javascript/flavours/glitch/features/account_timeline/components/fields.tsx:145-151 | verified icon exactly when `verified_at` is truthy; link icon exactly when not verified and `value_plain` is truthy and a valid URL; no icon otherwise |
| `Fields.NoLinkWithoutValue` | app/javascript/flavours/glitch/features/account_timeline/components/fields.tsx:148 | a null or empty `value_plain` never yields the link icon |
| `Fields.FieldCards` | app/javascript/flavours/glitch/features/account_timeline/components/fields.tsx:94-127 | one card per field in field order, keyed by position, with its label, value, title and icon; the verified class is set exactly when `verified_at` is truthy, which is exactly when the icon is the verified one |
| `Fields.RenderHeaderFields` | app/javascript/flavours/glitch/features/account_timeline/components/fields.tsx:26-58 | nothing exactly when the account is missing; the redesign shows exactly the cards `FieldCards` builds, one per field; the classic layout shows the join date and the fields |
| `SkinMigration.Flavour` | db/migrate/20260209142401_glitch_migrate_default_skin_setting.rb:24-29 | a missing or blank `flavour` row counts as `glitch`; otherwise its parsed value |
| `SkinMigration.UpOutcome` | db/migrate/20260209142401_glitch_migrate_default_skin_setting.rb:6-18 | `up` raises exactly when the flavour parse raises, or the flavour is `glitch`/`vanilla`, the skin value is present and its parse raises; a rewrite needs a `glitch`/`vanilla` flavour and an existing `skin` row |
| `SkinMigration.UpRows` | db/migrate/20260209142401_glitch_migrate_default_skin_setting.rb:6-18 | the table after `up` is either unchanged or has only its existing `skin` row set to `--- default\n` |
| `SkinMigration.RewriteIff` | db/migrate/20260209142401_glitch_migrate_default_skin_setting.rb:6-18 | a rewrite happens exactly when the flavour is `glitch` or `vanilla`, the `skin` value is present and parses to `mastodon-light`, `contrast` or `system`; it then writes exactly `--- default\n`; otherwise the table is unchanged |
| `SkinMigration.OnlySkinChanges` | db/migrate/20260209142401_glitch_migrate_default_skin_setting.rb:11-17 | no row is added or removed and every row other than `skin` keeps its value |
| `SkinMigration.UpIdempotent` | db/migrate/20260209142401_glitch_migrate_default_skin_setting.rb:15-17 | running `up` twice gives the same table as once, when `--- default\n` parses to `default` |
| `SkinMigration.SettingsTable.Up` | db/migrate/20260209142401_glitch_migrate_default_skin_setting.rb:6-18 | the guards in order, each early return leaving the table alone, and the final `update_column` on the skin row |
| `SkinMigration.SettingsTable.Down` | db/migrate/20260209142401_glitch_migrate_default_skin_setting.rb:20 | `down` changes nothing |

## Left out

- Debouncing (`useDebouncedCallback`, 500 ms, leading and trailing): timers from a third-party library. Only the callback body that runs once the debounced call fires is modelled.
- The transport: `apiRequest`, HTTP, and how the abort signal propagates. A request is a number whose completion the caller chooses. A request aborted before it settles can only fail afterwards. A response that arrives at the very moment of the abort is not modelled.
- React's state batching: setter calls take effect at once.
- The Redux store and `importFetchedAccounts`: the import is a logged call that carries the accounts.
- `SearchAccounts.SearchSession.ResolveSuccess` and `ResolveFailure` require that the request has not settled yet, and `ResolveSuccess` also that it was not aborted. This is how promises behave. It is not a check in the hook.
- `SearchAccounts.SearchSession.ResolveSuccess`: assumes `importFetchedAccounts` and `onSettled` do not throw. If one of them threw inside `.then`, the chained `.catch` would also run, setting `error` and calling `onSettled` a second time; that path is not modelled.
- Foreign lookups become parameters: `isRedesignEnabled` (`isServerFeatureEnabled`), `useAccount`, `getAccountHidden`, `useAccountVisibility`, the relationship, `me`, `autoPlayGif`, the local domain, and `isValidUrl`.
- Rendering: JSX, `classNames`, CSS module classes, Helmet (beyond the title and robots values), react-intl messages, date formatting, the canonical link, `navigator.share` detection (the `noShare`/`forceMenu` flags), the `IntersectionObserver` visibility of the sticky buttons, and the child components (`AccountButtons`, `AccountBadges`, `ActionBar`, `AccountBio` and others). These are not part of this model.
- `YAML.safe_load`, ActiveRecord (`find_by`, `update_column`) and `reset_column_information`. The settings table is a map keyed by `var`, so `find_by` sees at most one row per `var`. A raising parse is an abort with the table unchanged.
- Strings are sequences of Unicode scalar values, not UTF-16 code units. Every character that `trim` or `[[:space:]]` treats as whitespace is in the Basic Multilingual Plane, so the whitespace tests are unaffected.
- `components/status/header.tsx`, `confirmation_modal.tsx` and `profile_column_header.tsx` are presentational. `api/interactions.ts` is a thin POST wrapper over a client that is not part of this model. `collections/utils.ts` and `account_timeline/common.ts` are one-line feature-flag wrappers over foreign calls.
