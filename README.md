# Home component of the community-management client, modelled in Dafny

The `Home` component is the navigation shell of the client. When it mounts it
reads the signed-in user's stored `userData` record and copies the record's
`isPresident` flag into its state. If the record carries a truthy
`comunity_id`, it asks the community service for that community and shows the
returned `name` in place of the default "Tu Comunidad". A failed lookup is
caught and logged. The component renders five fixed sidebar links. A sixth,
`/settings`, appears only for a truthy president flag. The header reads
`Bienvenido a "<name>"`. Signing out calls `logout` and then navigates to
`/login`. If `logout` throws, the exception leaves the handler and there is
no navigation.

The model has three modules:

- `JsValues` (js_values.dfy): the JavaScript values the component inspects,
  and truthiness. The `if` tests at lines 31 and 35 and the `&&` at line 80
  are truthiness tests, and so is the `userData ?` guard at line 27. The `?.`
  at line 29 only guards against `null` and `undefined`, and it gives
  `undefined` for every parsed value that is not an object. For the same
  values line 27 gives `null` or `undefined`. All of these are falsy and
  render nothing, so `NoRecord` stands for every one of them. The `catch` at
  line 38 is modelled by the outcome `Threw`.
- `Shell` (shell.dfy): the sidebar and the header text, both as pure functions
  of the state. `HeaderName` is the header's inverse.
- `HomeComponent` (home.dfy): the view state, the resolver as the
  specification function `Resolved`, the events it produces, and
  the class `Home`. Its fields `communityName` and `isPresident` are the two
  `useState` cells, and its field `trace` records the outside actions
  (`Fetch`, `ConsoleError`, `Logout`, `Navigate`). `Home.Resolve` updates
  the fields step by step, as `fetchCommunityName` does, and is proved equal to
  `Resolved`. `Home.HandleLogout` appends `Logout` and then,
  unless `logout` throws, `Navigate("/login")`. The method
  `MountResolveSignOut` mounts a component, resolves it and signs out,
  and shows that the contracts alone give the final state and trace.

The model takes these inputs in place of I/O:

- The parsed session record is the `UserData` value.
- The outcome of `fetch` plus `response.json()` is the `LookupOutcome` value.
- `logout`, `console.error` and navigation appear only as trace events.

Some consequences of the code are easy to miss. The model follows the code in each case:

- The admin link is shown for any truthy `isPresident`, not only for `true`.
  For example, the strings `"no"` and `"false"` show it.
- A lookup with a non-2xx status whose body has a non-empty `name` still sets
  the name, because the status is never checked.
- The record is parsed before the `try` block, so a malformed stored string
  throws out of the resolver. The model starts from an already parsed record,
  so it makes no claim that resolution never throws.
- Navigation to `/login` happens only when `logout()` returns. A throwing
  `logout` skips it.
- When `isPresident` is the number `0`, `isPresident && (...)` evaluates to
  `0`, and React renders that number as the text "0" in the sidebar. The model
  keeps this as the item `Text("0")`.

## Model

| member | source | states |
|---|---|---|
| JsValues.Truthy | src/components/Home/Home.js:31-35 | a value is falsy exactly when it is `undefined`, `null`, `false`, `0` or `""`, which is JavaScript's list of falsy JSON values |
| Shell.AdminFragment | src/components/Home/Home.js:80-87 | `isPresident && (...)` renders the settings link iff the flag is truthy, the text "0" iff the flag is the number 0, and nothing otherwise |
| Shell.Header | src/components/Home/Home.js:93 | the header is `Bienvenido a "`, then the community name, then a closing quote |
| HomeComponent.CommunityIdOf | src/components/Home/Home.js:27 | without a record the id is falsy; with a record it is the record's `comunity_id` |
| HomeComponent.IsPresidentOf | src/components/Home/Home.js:29 | without a record the flag is falsy; with a record it is the record's `isPresident` |
| HomeComponent.StringFalseShowsSettings | src/components/Home/Home.js:29-80 | a stored `isPresident` of `"false"` is truthy, so the settings link is shown whatever the prior state and the lookup |
| Shell.Sidebar | src/components/Home/Home.js:59-87 | the first five entries are always home, reservations, meetings, votes and chats, in that order; the settings link is present iff the flag is truthy, and is then the sixth and last entry; a falsy flag adds at most the text "0", and only for the number 0; no route appears twice |
| Shell.HeaderRoundTrip | src/components/Home/Home.js:93 | the header text always gives back exactly the community name between `Bienvenido a "` and the closing quote |
| Shell.HeaderNameSound | src/components/Home/Home.js:93 | every text that reads back as a header is the header of the name read from it |
| Shell.HeaderInjective | src/components/Home/Home.js:93 | different community names give different headers |
| HomeComponent.Resolved | src/components/Home/Home.js:24-42 | the president flag becomes the record's flag (`undefined` without a record) whatever the lookup does; the name is unchanged when no lookup is issued, when the lookup throws, or when the body has no name or an empty one; a lookup that yields a non-empty name sets exactly that name; any new name comes from the body; a non-empty name stays non-empty |
| HomeComponent.ResolveEvents | src/components/Home/Home.js:31-41 | no event without a truthy id; otherwise exactly one `Fetch` of that id, first; at most two events; an error is logged iff the lookup threw, and then exactly once, right after the `Fetch` |
| HomeComponent.SignOutEvents | src/components/Home/Home.js:51-54 | a sign-out starts with `Logout`, and includes `Navigate("/login")`, placed right after it, iff `logout` returns |
| HomeComponent.SignOutOnce | src/components/Home/Home.js:51-54 | after any prior trace, a sign-out adds exactly one `Logout`, then exactly one `Navigate("/login")` when `logout` returns and none when it throws, and no other event |
| HomeComponent.ResolveLeavesSession | src/components/Home/Home.js:24-42 | resolution adds no logout and no navigation, and at most one lookup of the record's id |
| HomeComponent.ResolvedIdempotent | src/components/Home/Home.js:24-42 | resolving twice with the same record and outcome gives the same state as resolving once |
| HomeComponent.ResolvedFromInitial | src/components/Home/Home.js:20-42 | from a fresh mount the name is the default unless the body supplied it, and the settings link shows iff the record's flag is truthy |
| HomeComponent.ScenarioPresidentWithName | src/components/Home/Home.js:24-36 | a president with id "42" whose lookup yields "Las Palmeras" sees `Bienvenido a "Las Palmeras"` and the settings link |
| HomeComponent.ScenarioNoRecord | src/components/Home/Home.js:25-31 | without a stored record nothing is fetched, the header shows "Tu Comunidad" and there is no settings link |
| HomeComponent.ScenarioLookupThrows | src/components/Home/Home.js:31-41 | a thrown lookup for id "7" is fetched once and logged, and the default header is kept |
| HomeComponent.FalsyIdSkipsLookup | src/components/Home/Home.js:27-31 | an id of `0` or `""` is falsy, so for either no lookup is issued and the default name stays |
| HomeComponent.Home.constructor | src/components/Home/Home.js:20-21 | a fresh component shows "Tu Comunidad", has the flag `false` and an empty trace |
| HomeComponent.Home.Resolve | src/components/Home/Home.js:24-42 | the step-by-step update of the two fields yields `Resolved` of the old state, appends `ResolveEvents` to the trace, and keeps the name non-empty |
| HomeComponent.Home.HandleLogout | src/components/Home/Home.js:51-54 | the trace grows by `Logout`, then by `Navigate("/login")` unless `logout` throws; only the trace may change |
| HomeComponent.Home.SidebarItems | src/components/Home/Home.js:80-87 | the rendered sidebar holds the settings link iff the held flag is truthy |
| HomeComponent.Home.HeaderText | src/components/Home/Home.js:93 | the rendered header reads back as exactly the held community name |

## Left out

- Reading `localStorage` and `JSON.parse`: the parsed record is an input, so the exception from a malformed stored string is not modelled.
- `fetch`, the service URL and `response.json()`: network and parsing I/O. They reach the model only as the `LookupOutcome` input and the `Fetch(id)` event.
- A body whose `name` is truthy but not a string (a number, `true`, an object): `LookupOutcome` cannot express it. The code would store it, and React would render it or throw.
- React hooks (`useState`, `useEffect` and its run-once-on-mount rule), re-rendering, JSX structure, icons and CSS: framework plumbing. Running the resolver once per mount is left to the caller of `Home.Resolve`.
- The async suspension at `await`, unmounting before the lookup settles, and the lack of cancellation: event-loop concurrency. `Home.Resolve` runs the whole resolution as one step.
- The text passed to `console.error`, the body of `logout` and the router's internals: foreign code, seen only as trace events.
- HomeComponent.Home.HandleLogout: a throwing `logout` is modelled by the handler stopping after `Logout`. The exception itself, which propagates into React's event handling, is not modelled.
