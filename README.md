# Navbar state machine, in Dafny

This project models the decision logic of the HackSpire site's `Navbar` React
component (`src/components/layout/Navbar.tsx`). The component keeps four pieces
of state: `isOpen` (is the mobile menu open), `scrolled` (is the page scrolled past 10),
and the two identities `team` and `admin`, each parsed from a session-storage slot.
Four things change that state:

- the session effect reads the slots `"team"` and `"admin_user"`;
- `handleScroll` compares `window.scrollY` with the threshold 10;
- `toggleMenu` flips the menu;
- the location effect closes the menu on every route change.

From that state the component renders three things:

- the chrome style;
- a desktop link list chosen by which identities are non-null;
- a mobile panel with a fixed list.

Router items get active-route styling when the pathname equals their target
exactly; on the desktop `NavItem` this also draws an underline indicator.

Files:

- `state.dfy` (module `NavbarState`) holds the state record `NavState` and the
  four transitions as pure functions. It also folds a sequence of events into a
  state (`Run`) and proves, for each field, which event of a whole run decides
  its value.
- `view.dfy` (module `NavbarView`) holds the link constants and `DesktopLinks`,
  which follows the component's conditionals. It also holds an independent
  visibility table (`DesktopTable` with `Select`), the mobile list, `IsActive`
  and `ActiveLinks`, `Render`, and the scenarios.
- `navbar.dfy` (module `NavbarComponent`) holds the class `Navbar`. Its four
  mutable fields are the component's state hooks, and its methods are the
  effects and handlers that overwrite them. Each method's postcondition ties
  the new state to the matching pure transition of the old state.

Foreign inputs become parameters:

- `sessionStorage` is a `map<string, string>` (`Store`).
- `window.scrollY` is an `int` argument.
- `JSON.parse` is a function argument `parse: string -> Option<Json>`. `None`
  means that it throws. `Json` is `Null | Value(doc)`, because the component
  only asks whether a parsed value is `null`.

Some of the code's behaviour is easy to misread; the model follows the code:

- **Parse failure.** A slot that does not parse makes `JSON.parse` throw. The
  effect stops before any setter runs, and nothing falls back to the guest
  view. `ResolveSession` returns `Err(Malformed(key))` and leaves the state as
  it was. A run of events ends at that error.
- **Both identities at once.** Team and admin are not mutually exclusive. Each
  slot branch of the session effect (lines 17-20) sets one identity and never
  clears the other; only the branch with both slots absent clears both,
  so an admin session followed by a team session leaves both set
  (`BothIdentitiesReachable`). The desktop bar then shows the team group and
  both sign-outs (`BothSignOutsShown`).
- **Desktop conditions.** The desktop conditions are independent tests, not a
  first-match chain.
- **Mobile list.** The mobile list ignores identity: Home, About, Sign In,
  Register (`MobileIgnoresIdentity`).
- **A `null` payload.** A team slot holding the text `null` parses to `null`.
  It sets `team` to null, and the admin slot is not consulted
  (`NullTeamPayloadHidesAdminSlot`).

## Model

| member | source | states |
|---|---|---|
| `NavbarState.ResolveSession` | src/components/layout/Navbar.tsx:16-24 | a present team slot decides the outcome alone: it sets `team` to its parse and leaves `admin`, or it fails with `Malformed("team")`. Otherwise a present admin slot sets `admin` and leaves `team`, or it fails with `Malformed("admin_user")`. With both slots absent both identities become null. The menu and scroll flags never change |
| `NavbarState.TeamSlotWins` | src/components/layout/Navbar.tsx:17-20 | while the team slot is present, changing or removing the admin slot does not change the outcome |
| `NavbarState.NullTeamPayloadHidesAdminSlot` | src/components/layout/Navbar.tsx:17-18 | a team slot holding `null` keeps the mounted state even when an admin slot is present |
| `NavbarState.BothIdentitiesReachable` | src/components/layout/Navbar.tsx:17-20 | an admin session and then a team session, from mount, leave both `team` and `admin` non-null |
| `NavbarState.TeamAfterRun` | src/components/layout/Navbar.tsx:16-24 | after any run, `team` is what the last session effect that writes it wrote (the team slot's parse when that slot is present, null when both slots are absent), or its starting value if no effect wrote it |
| `NavbarState.AdminAfterRun` | src/components/layout/Navbar.tsx:16-24 | after any run, `admin` is what the last session effect with the team slot absent wrote (the admin slot's parse when present, null when both slots are absent), or its starting value if there was none |
| `NavbarState.TeamComesFromTeamSlot` | src/components/layout/Navbar.tsx:16-24 | after any run from mount, a non-null `team` equals the parse of the team slot of some session effect |
| `NavbarState.AdminComesFromAdminSlot` | src/components/layout/Navbar.tsx:16-24 | after any run from mount, a non-null `admin` equals the parse of the admin slot of a session effect whose team slot was absent |
| `NavbarState.OnScroll` | src/components/layout/Navbar.tsx:26-28 | `scrolled` becomes whether the offset is strictly past 10, which for the whole offsets the model takes means at least 11. No other field changes |
| `NavbarState.ScrollBoundary` | src/components/layout/Navbar.tsx:27 | offset 10 leaves `scrolled` false and offset 11 sets it, whatever the rest of the state |
| `NavbarState.ScrolledAfterRun` | src/components/layout/Navbar.tsx:26-31 | after any run, `scrolled` is decided by the last scroll event alone, or keeps its starting value if there was none |
| `NavbarState.ToggleMenu` | src/components/layout/Navbar.tsx:38 | `isOpen` is negated and no other field changes |
| `NavbarState.ToggleTwiceRestores` | src/components/layout/Navbar.tsx:7-38 | two toggles restore the state, and one toggle from the mounted state opens the menu |
| `NavbarState.OnLocationChange` | src/components/layout/Navbar.tsx:34-36 | the menu ends closed and no other field changes |
| `NavbarState.LocationChangeAbsorbs` | src/components/layout/Navbar.tsx:34-36 | a location change closes the menu from either state, a second one changes nothing, and it is a no-op on a closed menu |
| `NavbarState.MenuAfterRun` | src/components/layout/Navbar.tsx:34-38 | after any run, the menu is open exactly when an odd number of toggles follows the last location change. With no location change, the count starts from the initial menu state |
| `NavbarView.DesktopLinks` | src/components/layout/Navbar.tsx:63-90 | the bar starts with Home and About. Team and Sign Out (`/logout`) appear exactly when `team` is non-null, Sign Out (`/admin-logout`) exactly when `admin` is non-null, and Sign In and Admin Login exactly when both are null |
| `NavbarView.DesktopLinksFollowTable` | src/components/layout/Navbar.tsx:63-90 | the bar equals the visibility table (`Always`, `WithTeam`, `WithAdmin`, `AsGuest`) filtered by the current identities, in table order |
| `NavbarView.BothSignOutsShown` | src/components/layout/Navbar.tsx:66-84 | with both identities set the bar is Home, About, Team, Your Project, Submit Project, `/logout`, `/admin-logout` |
| `NavbarView.ActiveLinks` | src/components/layout/Navbar.tsx:116-158 | a link gets active-route styling exactly when it is a router item (`NavItem`/`MobileNavItem`) whose target equals the pathname. None does when no such item exists |
| `NavbarView.AtMostOneActive` | src/components/layout/Navbar.tsx:118 | in any list whose router items have distinct targets, at most one item is active |
| `NavbarView.DesktopActiveIndicator` | src/components/layout/Navbar.tsx:63-141 | in the desktop bar at most one link is active, and exactly one when the pathname is the target of one of its router items |
| `NavbarView.NoPrefixMatching` | src/components/layout/Navbar.tsx:118 | at `/team/x` no desktop link is active, although `/team` is shown |
| `NavbarView.GuestAtAboutScenario` | src/components/layout/Navbar.tsx:63-118 | with no session the bar is Home, About, Sign In, Admin Login, and at `/about` only About is active |
| `NavbarView.Render` | src/components/layout/Navbar.tsx:45-109 | the chrome is compact exactly when `scrolled` or `isOpen`, and the mobile panel shows exactly when `isOpen`. The desktop list is the visibility table's selection, and the mobile targets are `/`, `/about`, `/login`, `/register` in that order |
| `NavbarView.OpenMenuForcesCompact` | src/components/layout/Navbar.tsx:45-49 | opening the menu at offset 0 gives compact chrome and a visible panel |
| `NavbarView.MobileIgnoresIdentity` | src/components/layout/Navbar.tsx:95-109 | the mobile list is the same fixed list whatever the identities |
| `NavbarView.TeamSessionScenario` | src/components/layout/Navbar.tsx:13-90 | a team slot alone, from mount, gives the bar Home, About, Team, Your Project, Submit Project, Sign Out |
| `NavbarView.RouteChangeClosesScenario` | src/components/layout/Navbar.tsx:34-36 | an open menu is closed, and its panel hidden, after one location change |
| `NavbarComponent.Navbar.constructor` | src/components/layout/Navbar.tsx:7-10 | a mounted bar starts with the menu closed, not scrolled and both identities null |
| `NavbarComponent.Navbar.ResolveSessionEffect` | src/components/layout/Navbar.tsx:13-24 | writes only `team` and `admin`. It leaves the state `ResolveSession` gives and reports no failure, or reports the malformed slot and changes nothing |
| `NavbarComponent.Navbar.HandleScroll` | src/components/layout/Navbar.tsx:26-28 | writes only `scrolled`, to whether the offset exceeds 10 |
| `NavbarComponent.Navbar.ToggleMenu` | src/components/layout/Navbar.tsx:38 | writes only `isOpen`, to its negation |
| `NavbarComponent.Navbar.LocationEffect` | src/components/layout/Navbar.tsx:34-36 | writes only `isOpen`, to false |

## Left out

- Markup, Tailwind class strings, framer-motion animation props and lucide icons
  (lines 41-112) are presentation. They are reduced to the chrome flag, the
  panel flag and the link sequences. The logo link to `/` (lines 52-57) is part
  of that markup and not of either link list.
- `JSON.parse` itself is a parameter. Its grammar and the structure of a parsed
  payload are not modelled.
- `window.scrollY` is taken as an integer. Fractional offsets are not modelled:
  an offset y behaves as its ceiling would (10.5 sets `scrolled`).
- Registering and removing the scroll listener (lines 30-31) is not modelled.
  This covers the listener being re-registered whenever the session effect
  re-runs, and the cleanup on unmount.
- `useEffect` dependency arrays and React's render scheduling are not modelled.
  Each effect is an explicit event. The caller decides when it runs: the
  session effect when either slot string changes, the location effect when the
  router's location changes.
- The listener registration after a throw is not modelled. A throw inside the
  session effect is the end of a run (`Err`), and what React does with the
  error afterwards is outside the component.
- Navigation through `Link` and the `<a href>` sign-outs is external. Only the
  target strings and the kind of link are kept.
- The scroll handler calls the setter on every event. Suppressing repeated
  identical values leaves the same state, so no separate model is needed.
