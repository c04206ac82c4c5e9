# Radiology demo UI: client-side state, modelled in Dafny

The application is a browser demo of a radiology workflow. The state its
pages share (the session, the mock data and the theme) lives in three
components. A fourth, the route guard, decides from the session what a
protected page shows. This project models those four:

- **`AuthProvider`** (`auth.dfy`, module `Auth`): the demo sign-in session.
  It holds the current `user` and a `hydrated` flag, and persists the user
  under the `raa_auth_user` storage key. Its operations are restoring the
  session on mount, `login` and `logout`.
- **`DataProvider`** (`data.dfy`, module `Data`): the mock studies, draft
  reports and cases. The lists start from storage (`raa_studies`,
  `raa_reports`) or fall back to the seed lists. Effects write them back.
  `addStudy` files a new study and drafts a report from it.
- **`RequireAuth`** (`guard.dfy`, module `Guard`): the route guard. It shows
  a skeleton, renders nothing and redirects to sign-in, or renders the
  protected page.
- **`ThemeToggle`** (`theme.dfy`, module `Theme`): the light/dark switch.
  It covers the `theme` state, the `raa_theme` storage entry and the `dark`
  class on the document element.

Supporting modules:
- `Wrappers`: `Option`, `JSON.parse`'s outcome, and JavaScript's `||` on
  strings.
- `Browser`: `localStorage` and `classList`, as abstract objects.
- `Strings`: `split` with a one-character separator, and `join`.

The three stateful components (`AuthProvider`, `DataProvider` and
`ThemeToggle`) are each described by pure transition functions over a state
value. For example, `Auth.AfterLogin` maps an `AuthState` (user, hydrated,
storage map) to the next state and the result. The lemmas about the
behaviour are stated on these functions. Each of the three is also a class
with the source's fields, sharing one `LocalStorage` object. Each class
method is proved to produce exactly `After…(old(State()))`. `RequireAuth`
has no state of its own: it is the single function `Guard.Decide` over the
session's `hydrated` flag and user and the current path.

Things the model takes as parameters:
- `JSON.parse` is a function `string -> ParseResult<T>`. `SyntaxError`
  stands for the exception the source catches.
- `JSON.stringify` and `encodeURIComponent` are functions.
- Each `nanoid()` result is a parameter.
- Each `new Date().toISOString()` reading is a parameter.
- Whether `window` exists (server rendering) is a parameter.

Some behaviour of the code is worth stating outright:
- The sign-in test accepts any email with the password `demo123`.
  `Auth.Accepts` proves that the demo-account disjunct adds nothing.
- A stored value is used only when it is a non-empty string, because
  JavaScript treats `""` as false.
- In the seed-report fallback, the spread `...r` comes after the defaults.
  So a report that has `createdAt` keeps it even when it is empty. The clock
  is still read for an empty `createdAt`, but that reading is overwritten;
  the clock reading is kept only for a report that lacks the field.
- The theme is modelled as a string. The stored value is cast without any
  check, so a stray value such as `"blue"` becomes the theme. `toggle` maps
  it to `"light"`.

## Model

| member | source | states |
|---|---|---|
| `Strings.Split` | components/auth-provider.tsx:37 | `split("@")` always yields at least one piece, and the first piece is the text before the first `@` (all of it when there is none) |
| `Strings.SplitJoin` | components/auth-provider.tsx:37 | splitting loses nothing: joining the pieces with the separator gives back the string, and no piece contains the separator |
| `Auth.Accepts` | components/auth-provider.tsx:17-36 | the credential test holds exactly when the password is `demo123`, whatever the email |
| `Auth.NameFor` | components/auth-provider.tsx:37 | the name is `Dr. Demo` for the demo email, and otherwise the prefix of the email before its first `@` |
| `Auth.NameEdgeCases` | components/auth-provider.tsx:37 | an email without `@` is its own name; an email starting with `@` gives the empty name |
| `Auth.Initial` | components/auth-provider.tsx:20-21 | a new provider has no user, is not hydrated, and has not touched storage |
| `Auth.AfterHydrate` | components/auth-provider.tsx:23-32 | hydration always ends hydrated and leaves storage alone; it adopts the stored user exactly when the entry is present, non-empty and parses, and otherwise keeps the user |
| `Auth.AfterLogin` | components/auth-provider.tsx:34-43 | login returns true iff the password is `demo123`; on success the user has the given email and the derived name, is serialised under `raa_auth_user` with every other entry kept, and `hydrated` is untouched; on failure nothing changes |
| `Auth.AfterLogout` | components/auth-provider.tsx:45-48 | after logout there is no user and no `raa_auth_user` entry; every other entry is kept and nothing is added |
| `Auth.LogoutIdempotent` | components/auth-provider.tsx:45-48 | logging out twice is the same as logging out once |
| `Auth.LoginSurvivesReload` | components/auth-provider.tsx:23-40 | after a successful login, a new provider hydrating from the storage it left gets the same user back, provided parse inverts stringify and the serialised text is non-empty |
| `Auth.LogoutSurvivesReload` | components/auth-provider.tsx:23-48 | after logout, a new provider hydrating from the storage it left has no user, whatever the parser does |
| `Auth.AuthProvider.constructor` | components/auth-provider.tsx:20-21 | the provider starts with no user and not hydrated |
| `Auth.AuthProvider.Hydrate` | components/auth-provider.tsx:23-32 | the mount effect moves the provider and storage exactly as `AfterHydrate` says |
| `Auth.AuthProvider.Login` | components/auth-provider.tsx:34-43 | `login` moves the provider and storage exactly as `AfterLogin` says and returns its result |
| `Auth.AuthProvider.Logout` | components/auth-provider.tsx:45-48 | `logout` moves the provider and storage exactly as `AfterLogout` says |
| `Guard.NextPath` | components/require-auth.tsx:17 | the return path is the current path when it is present and non-empty, and `/dashboard` otherwise; it is never empty |
| `Guard.RedirectTarget` | components/require-auth.tsx:17 | the target starts with `/login?next=`, and the rest is the encoded return path |
| `Guard.Decide` | components/require-auth.tsx:15-32 | skeleton iff not hydrated; blank iff hydrated with no user; children iff hydrated with a user; a redirect, to `RedirectTarget`, iff hydrated with no user |
| `Guard.GuardBeforeHydration` | components/require-auth.tsx:21-29 | a newly mounted session renders the skeleton and issues no redirect |
| `Guard.GuardAfterLogin` | components/require-auth.tsx:31-32 | once hydrated, a successful login renders the protected children with no redirect |
| `Guard.GuardAfterLogout` | components/require-auth.tsx:16-18 | once hydrated, logout renders nothing and redirects to sign-in with the encoded current path |
| `Theme.Initial` | components/theme-toggle.tsx:7 | before the load effect the theme is `light`, and storage and classes are untouched |
| `Theme.LoadedTheme` | components/theme-toggle.tsx:10 | the loaded theme is the stored value when present and non-empty, and `light` otherwise; it is never empty |
| `Theme.WithDark` | components/theme-toggle.tsx:12-16 | `dark` is in the class list exactly when requested; every other class is kept |
| `Theme.AfterLoad` | components/theme-toggle.tsx:9-17 | load takes the stored theme (or `light`) and leaves storage alone; the `dark` class is present iff the theme is `dark`; other classes are kept |
| `Theme.Next` | components/theme-toggle.tsx:20 | `light` becomes `dark`, and any other value becomes `light` |
| `Theme.AfterToggle` | components/theme-toggle.tsx:19-25 | toggle makes the next theme current and stores it under `raa_theme`; the `dark` class is present iff the new theme is `dark`; other classes are kept |
| `Theme.ToggleTwice` | components/theme-toggle.tsx:20-24 | from `light` or `dark`, two toggles restore the theme, and the `dark` class ends up matching the original theme |
| `Theme.ToggleTwiceFromStray` | components/theme-toggle.tsx:20 | from any other stored value, one toggle gives `light` and two give `dark` |
| `Theme.ToggleSurvivesReload` | components/theme-toggle.tsx:9-24 | loading from the storage a toggle left gives back the toggled theme and class state |
| `Theme.View` | components/theme-toggle.tsx:28-29 | the button is pressed iff the theme is `dark`; it shows `Dark` when pressed and `Light` otherwise; its aria-label is `Toggle theme` |
| `Theme.ThemeToggle.constructor` | components/theme-toggle.tsx:7 | the component starts in the `light` theme |
| `Theme.ThemeToggle.Load` | components/theme-toggle.tsx:9-17 | the load effect moves the component and the class list exactly as `AfterLoad` says |
| `Theme.ThemeToggle.Toggle` | components/theme-toggle.tsx:19-25 | `toggle` moves the component, storage and the class list exactly as `AfterToggle` says |
| `Data.SeedStudies` | components/data-provider.tsx:53-102 | six seed studies, none with an image, whose ids are the first six `nanoid()` results |
| `Data.SeedReports` | components/data-provider.tsx:104-133 | four seed reports, each with a creation time and no image, whose ids are the next four `nanoid()` results |
| `Data.SeedCases` | components/data-provider.tsx:135-163 | six seed cases, whose ids are the following six `nanoid()` results |
| `Data.WithDefaults` | components/data-provider.tsx:182-186 | the defaulted report keeps every field it had; `imageDataUrl` becomes the placeholder only when missing; `createdAt` becomes the clock reading only when missing |
| `Data.AllWithDefaults` | components/data-provider.tsx:182-186 | the mapped list has the same length and applies `WithDefaults` at each position, in order |
| `Data.SeedFallbackOnlyAddsImage` | components/data-provider.tsx:182-186 | on the seed reports, the fallback changes nothing except setting the placeholder image |
| `Data.StoredOr` | components/data-provider.tsx:166-187 | a list starts as the stored list when there is a window and the entry is present, non-empty and parses, and otherwise as the fallback |
| `Data.ReadList` | components/data-provider.tsx:166-174 | the initialiser run against the storage object returns exactly `StoredOr`'s list |
| `Data.InitialData` | components/data-provider.tsx:165-188 | studies start stored-or-seed; reports start stored-or-defaulted-seed; cases are the seed cases; storage is untouched |
| `Data.DraftReport` | components/data-provider.tsx:205-217 | the draft has the title `<patient> - Draft` (`Patient - Draft` when the name is empty) and the summary `Auto-drafted from <file>`; its image is the study's non-empty image or the placeholder; it copies the patient name, has the fixed findings and impression, and is stamped with the clock reading |
| `Data.AfterAddStudy` | components/data-provider.tsx:202-220 | the new study (the given fields plus the fresh id) is at index 0 and its draft report leads the reports; all earlier studies and reports follow unchanged and in order; cases and storage are untouched |
| `Data.AfterPersistStudies` | components/data-provider.tsx:190-194 | the write effect stores the serialised studies under `raa_studies`, or nothing when the write throws; the lists are untouched |
| `Data.AfterPersistReports` | components/data-provider.tsx:196-200 | the write effect stores the serialised reports under `raa_reports`, or nothing when the write throws; the lists are untouched |
| `Data.PersistSurvivesReload` | components/data-provider.tsx:166-200 | a store initialised from what the two write effects saved holds the same studies and reports, provided parse inverts stringify and the serialised text is non-empty |
| `Data.DataProvider.constructor` | components/data-provider.tsx:165-188 | the provider starts in exactly the `InitialData` state, and `cases` is a constant field |
| `Data.DataProvider.AddStudy` | components/data-provider.tsx:202-220 | `addStudy` moves the provider exactly as `AfterAddStudy` says |
| `Data.DataProvider.PersistStudies` | components/data-provider.tsx:190-194 | the studies write effect moves storage exactly as `AfterPersistStudies` says |
| `Data.DataProvider.PersistReports` | components/data-provider.tsx:196-200 | the reports write effect moves storage exactly as `AfterPersistReports` says |

## Left out

- Report PDF export and its page layout (app/(app)/reports/page.tsx:30-148): outside the four components modelled here.
- The marketing page, the root and app layouts, the settings page, the sidebar and the top bar: these are markup and routing.
- The other pages are left out as well, together with the local state they keep for themselves:
  - The dashboard sorts and filters the lists for display.
  - The cases page holds filter state and filters the cases.
  - The reports page runs a loading timer, selects the first report automatically, and finds the selected report by id.
  - The upload page moves through timed stages (processing, predicting, saving) before it calls `addStudy`.
  - None of this is state logic of the four components.
- The sign-in form's validation: it is done by zod and react-hook-form, library calls outside this model.
- React plumbing is not modelled: effect scheduling, `useMemo`, the context's "must be used within" errors, and Strict Mode's double calls of updaters.
- The model covers only the state changes of effects. Each effect is a method the caller invokes, and the model does not say when React runs it.
- Auth.AfterLogin: `login` is asynchronous; the model gives the resolved boolean, not the promise.
- Auth.AfterLogin: a `setItem` that throws in `login` is not modelled. In the source it happens after `setUser`, so the user is set, and the exception rejects the returned promise. The data store's catch-all writes are modelled.
- Storage reads and removals that throw are not modelled: `LocalStorage.GetItem` and `RemoveItem` never fail. In the source:
  - `getItem` in the session-restoring effect (components/auth-provider.tsx:24) runs before its `try`. An exception escapes the effect, and `hydrated` is never set.
  - `getItem` in the theme's load effect (components/theme-toggle.tsx:10) is not guarded. An exception escapes the effect, before the theme or the class is set.
  - `getItem` in the two list initialisers (components/data-provider.tsx:167 and :176) runs before their `try`. An exception makes the `useState` initialiser throw during render.
  - `removeItem` in `logout` (components/auth-provider.tsx:47) runs after `setUser(null)`. An exception leaves the user cleared but the `raa_auth_user` entry stored, and it reaches the sign-out handler.
- Theme.AfterToggle: a `setItem` that throws in `toggle` is not modelled. In the source `setTheme` has already run, the `dark` class update is then skipped, so the class no longer matches the theme, and the exception reaches the click handler.
- `JSON.parse` is modelled by typed results only. The source casts the parsed value without checking it, so well-formed JSON of another shape would become the state. For the user, JSON `null` is modelled, as `Parsed(None)`.
- The encodings are parameters; their real character-level behaviour is not modelled. This covers `JSON.stringify`, `JSON.parse` and `encodeURIComponent`.
- The id generator and the clock are parameters, not implementations.
- Data.AllWithDefaults: the source evaluates `new Date()` separately for each report whose `createdAt` is missing or empty; the model takes one reading. This makes no difference on the seed reports, which all have a non-empty creation time, so the clock is never read for them (`SeedFallbackOnlyAddsImage`).
- Data.WithDefaults: a field that is present with the value `undefined` is not told apart from a missing field; both are `None`.
- `size` and `age` are JavaScript numbers; the model uses unbounded integers, so fractional values are not modelled.
