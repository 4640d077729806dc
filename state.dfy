/** The state the navigation bar keeps between renders, the four events that
    change it, and what a whole sequence of events does to it. */
module NavbarState {

  datatype Option<T> = None | Some(value: T)

  /** A value as `JSON.parse` returns it. The navigation bar only ever asks
      whether the value is `null`; anything else is an opaque document. */
  datatype Json = Null | Value(doc: string)

  /** Session storage: the string stored under each key that is present. */
  type Store = map<string, string>

  /** The two session-storage keys the navigation bar reads. */
  const TeamKey: string := "team"
  const AdminKey: string := "admin_user"

  /** Past this vertical offset (strictly greater) `scrolled` is set. */
  const ScrollThreshold: int := 10

  /** `sessionStorage.getItem(key)`: the stored string, or nothing. */
  function GetItem(store: Store, key: string): Option<string>
  {
    if key in store then Some(store[key]) else None
  }

  /** The component's four pieces of state. */
  datatype NavState = NavState(isOpen: bool, scrolled: bool, team: Json, admin: Json)

  /** The state at mount: menu closed, not scrolled, no identity. */
  const Initial := NavState(false, false, Null, Null)

  /** `JSON.parse` throwing on the string stored under `key`. */
  datatype SessionError = Malformed(key: string)

  datatype Result<T> = Ok(value: T) | Err(error: SessionError)

  /** The session effect: the team slot is consulted first and, when present,
      sets `team` alone; otherwise a present admin slot sets `admin` alone;
      with both slots absent both identities are cleared. A slot that does not
      parse aborts the effect with nothing changed. `parse` stands for
      `JSON.parse`, `None` meaning that it throws. */
  function ResolveSession(s: NavState, store: Store, parse: string -> Option<Json>): (r: Result<NavState>)
    ensures r.Ok? ==> r.value.isOpen == s.isOpen && r.value.scrolled == s.scrolled
    ensures TeamKey in store ==>
              (r.Ok? <==> parse(store[TeamKey]).Some?) &&
              (r.Ok? ==> r.value.team == parse(store[TeamKey]).value && r.value.admin == s.admin) &&
              (r.Err? ==> r.error == Malformed(TeamKey))
    ensures TeamKey !in store && AdminKey in store ==>
              (r.Ok? <==> parse(store[AdminKey]).Some?) &&
              (r.Ok? ==> r.value.admin == parse(store[AdminKey]).value && r.value.team == s.team) &&
              (r.Err? ==> r.error == Malformed(AdminKey))
    ensures TeamKey !in store && AdminKey !in store ==> r == Ok(s.(team := Null, admin := Null))
  {
    match GetItem(store, TeamKey)
    case Some(teamSession) =>
      (match parse(teamSession)
       case Some(v) => Ok(s.(team := v))
       case None => Err(Malformed(TeamKey)))
    case None =>
      match GetItem(store, AdminKey)
      case Some(adminSession) =>
        (match parse(adminSession)
         case Some(v) => Ok(s.(admin := v))
         case None => Err(Malformed(AdminKey)))
      case None => Ok(s.(team := Null, admin := Null))
  }

  /** `handleScroll`: only `scrolled` changes, to whether the offset is past the threshold. */
  function OnScroll(s: NavState, scrollY: int): (r: NavState)
    ensures r.scrolled <==> scrollY >= ScrollThreshold + 1
    ensures r.(scrolled := s.scrolled) == s
  {
    s.(scrolled := scrollY > ScrollThreshold)
  }

  /** `toggleMenu`: only `isOpen` changes, to its negation. */
  function ToggleMenu(s: NavState): (r: NavState)
    ensures r.isOpen != s.isOpen
    ensures r.(isOpen := s.isOpen) == s
  {
    s.(isOpen := !s.isOpen)
  }

  /** The location effect: the menu is closed, nothing else changes. */
  function OnLocationChange(s: NavState): (r: NavState)
    ensures !r.isOpen
    ensures r.(isOpen := s.isOpen) == s
  {
    s.(isOpen := false)
  }

  /** Two toggles in a row restore the menu, and one toggle from the mounted
      state opens it. */
  lemma ToggleTwiceRestores(s: NavState)
    ensures ToggleMenu(ToggleMenu(s)) == s
    ensures ToggleMenu(Initial).isOpen
  {
  }

  /** A location change closes the menu from either state, and a second one changes nothing. */
  lemma LocationChangeAbsorbs(s: NavState)
    ensures !OnLocationChange(s).isOpen
    ensures OnLocationChange(OnLocationChange(s)) == OnLocationChange(s)
    ensures !s.isOpen ==> OnLocationChange(s) == s
  {
  }

  /** The threshold is strict: offset 10 is not scrolled, offset 11 is. */
  lemma ScrollBoundary(s: NavState)
    ensures !OnScroll(s, 10).scrolled
    ensures OnScroll(s, 11).scrolled
  {
  }

  /** Precedence: while the team slot is present, whatever the admin slot
      holds (or whether it exists at all) makes no difference. */
  lemma TeamSlotWins(s: NavState, store: Store, parse: string -> Option<Json>, adminSession: string)
    requires TeamKey in store
    ensures ResolveSession(s, store[AdminKey := adminSession], parse) == ResolveSession(s, store, parse)
    ensures ResolveSession(s, store - {AdminKey}, parse) == ResolveSession(s, store, parse)
  {
    assert TeamKey != AdminKey;
    assert TeamKey in store[AdminKey := adminSession] && store[AdminKey := adminSession][TeamKey] == store[TeamKey];
    assert TeamKey in store - {AdminKey} && (store - {AdminKey})[TeamKey] == store[TeamKey];
  }

  /** A team slot holding the JSON text `null` parses to null: `team` is set to
      null, and the admin slot is not consulted, so the bar stays the guest bar. */
  lemma NullTeamPayloadHidesAdminSlot(adminSession: string, parse: string -> Option<Json>)
    requires parse("null") == Some(Null)
    ensures ResolveSession(Initial, map[TeamKey := "null", AdminKey := adminSession], parse) == Ok(Initial)
  {
    var store := map[TeamKey := "null", AdminKey := adminSession];
    assert TeamKey in store && store[TeamKey] == "null";
  }

  /** The events the component reacts to, in the order the UI queue delivers them.
      A location change carries no data: the effect only closes the menu. */
  datatype Event =
    | SessionEffect(store: Store)
    | Scroll(scrollY: int)
    | MenuToggle
    | LocationChange

  function Step(s: NavState, e: Event, parse: string -> Option<Json>): Result<NavState>
  {
    match e
    case SessionEffect(store) => ResolveSession(s, store, parse)
    case Scroll(y) => Ok(OnScroll(s, y))
    case MenuToggle => Ok(ToggleMenu(s))
    case LocationChange => Ok(OnLocationChange(s))
  }

  /** The state after the events `evs`, in order, starting from `s`; the first
      session effect that throws ends the run. */
  function Run(s: NavState, evs: seq<Event>, parse: string -> Option<Json>): Result<NavState>
    decreases |evs|
  {
    if evs == [] then Ok(s)
    else
      match Run(s, evs[..|evs| - 1], parse)
      case Ok(t) => Step(t, evs[|evs| - 1], parse)
      case Err(e) => Err(e)
  }

  /** The offset of the last scroll event, if any. */
  function LastScroll(evs: seq<Event>): Option<int>
    decreases |evs|
  {
    if evs == [] then None
    else if evs[|evs| - 1].Scroll? then Some(evs[|evs| - 1].scrollY)
    else LastScroll(evs[..|evs| - 1])
  }

  /** Whether any location change occurs in `evs`. */
  predicate RouteChanged(evs: seq<Event>)
  {
    exists i :: 0 <= i < |evs| && evs[i].LocationChange?
  }

  /** The number of toggles after the last location change (all of them if there is none). */
  function TogglesSinceRouteChange(evs: seq<Event>): nat
    decreases |evs|
  {
    if evs == [] then 0
    else if evs[|evs| - 1].LocationChange? then 0
    else if evs[|evs| - 1].MenuToggle? then TogglesSinceRouteChange(evs[..|evs| - 1]) + 1
    else TogglesSinceRouteChange(evs[..|evs| - 1])
  }

  /** `scrolled` is decided by the last scroll event alone. */
  lemma {:induction false} ScrolledAfterRun(s: NavState, evs: seq<Event>, parse: string -> Option<Json>)
    requires Run(s, evs, parse).Ok?
    ensures Run(s, evs, parse).value.scrolled ==
            match LastScroll(evs)
            case Some(y) => y > ScrollThreshold
            case None => s.scrolled
    decreases |evs|
  {
    if evs != [] {
      ScrolledAfterRun(s, evs[..|evs| - 1], parse);
    }
  }

  /** What the last session effect that writes `team` wrote: the team
      slot's parse when that slot is present, null when both slots are
      absent; nothing if no session effect wrote `team`. */
  function LastTeamWrite(evs: seq<Event>, parse: string -> Option<Json>): Option<Json>
    decreases |evs|
  {
    if evs == [] then None
    else
      var e := evs[|evs| - 1];
      if e.SessionEffect? && TeamKey in e.store then parse(e.store[TeamKey])
      else if e.SessionEffect? && AdminKey !in e.store then Some(Null)
      else LastTeamWrite(evs[..|evs| - 1], parse)
  }

  /** What the last session effect that writes `admin` wrote: with the team
      slot absent, the admin slot's parse when that slot is present, null
      when it is absent too; nothing if no session effect wrote `admin`. */
  function LastAdminWrite(evs: seq<Event>, parse: string -> Option<Json>): Option<Json>
    decreases |evs|
  {
    if evs == [] then None
    else
      var e := evs[|evs| - 1];
      if e.SessionEffect? && TeamKey !in e.store then
        (if AdminKey in e.store then parse(e.store[AdminKey]) else Some(Null))
      else LastAdminWrite(evs[..|evs| - 1], parse)
  }

  /** `team` is decided by the last session effect that writes it, or keeps
      its starting value if none did. */
  lemma {:induction false} TeamAfterRun(s: NavState, evs: seq<Event>, parse: string -> Option<Json>)
    requires Run(s, evs, parse).Ok?
    ensures Run(s, evs, parse).value.team ==
            match LastTeamWrite(evs, parse)
            case Some(v) => v
            case None => s.team
    decreases |evs|
  {
    if evs != [] {
      TeamAfterRun(s, evs[..|evs| - 1], parse);
    }
  }

  /** `admin` is decided by the last session effect that writes it, or keeps
      its starting value if none did. */
  lemma {:induction false} AdminAfterRun(s: NavState, evs: seq<Event>, parse: string -> Option<Json>)
    requires Run(s, evs, parse).Ok?
    ensures Run(s, evs, parse).value.admin ==
            match LastAdminWrite(evs, parse)
            case Some(v) => v
            case None => s.admin
    decreases |evs|
  {
    if evs != [] {
      AdminAfterRun(s, evs[..|evs| - 1], parse);
    }
  }

  /** The menu is open exactly when an odd number of toggles follows the last
      location change, counting from the starting state if there was none. */
  lemma {:induction false} MenuAfterRun(s: NavState, evs: seq<Event>, parse: string -> Option<Json>)
    requires Run(s, evs, parse).Ok?
    ensures Run(s, evs, parse).value.isOpen ==
            ((!RouteChanged(evs) && s.isOpen) != (TogglesSinceRouteChange(evs) % 2 == 1))
    decreases |evs|
  {
    if evs != [] {
      var init, last := evs[..|evs| - 1], evs[|evs| - 1];
      MenuAfterRun(s, init, parse);
      if last.LocationChange? {
        assert RouteChanged(evs);
      } else {
        assert RouteChanged(evs) <==> RouteChanged(init) by {
          if RouteChanged(evs) {
            var i :| 0 <= i < |evs| && evs[i].LocationChange?;
            assert init[i] == evs[i];
          }
          if RouteChanged(init) {
            var i :| 0 <= i < |init| && init[i].LocationChange?;
            assert evs[i] == init[i];
          }
        }
      }
    }
  }

  /** From the mounted state, a non-null `team` was parsed from the team slot of some session effect. */
  lemma {:induction false} TeamComesFromTeamSlot(evs: seq<Event>, parse: string -> Option<Json>)
    requires Run(Initial, evs, parse).Ok?
    requires Run(Initial, evs, parse).value.team.Value?
    ensures exists i :: 0 <= i < |evs| && evs[i].SessionEffect? && TeamKey in evs[i].store &&
                        parse(evs[i].store[TeamKey]) == Some(Run(Initial, evs, parse).value.team)
    decreases |evs|
  {
    var n := |evs|;
    var init, last := evs[..n - 1], evs[n - 1];
    var t := Run(Initial, init, parse).value;
    var team := Run(Initial, evs, parse).value.team;
    if last.SessionEffect? && TeamKey in last.store {
      assert parse(evs[n - 1].store[TeamKey]) == Some(team);
    } else {
      assert t.team == team;
      TeamComesFromTeamSlot(init, parse);
      var i :| 0 <= i < |init| && init[i].SessionEffect? && TeamKey in init[i].store &&
               parse(init[i].store[TeamKey]) == Some(t.team);
      assert evs[i] == init[i];
    }
  }

  /** From the mounted state, a non-null `admin` was parsed from the admin slot
      of some session effect whose team slot was absent. */
  lemma {:induction false} AdminComesFromAdminSlot(evs: seq<Event>, parse: string -> Option<Json>)
    requires Run(Initial, evs, parse).Ok?
    requires Run(Initial, evs, parse).value.admin.Value?
    ensures exists i :: 0 <= i < |evs| && evs[i].SessionEffect? && TeamKey !in evs[i].store &&
                        AdminKey in evs[i].store &&
                        parse(evs[i].store[AdminKey]) == Some(Run(Initial, evs, parse).value.admin)
    decreases |evs|
  {
    var n := |evs|;
    var init, last := evs[..n - 1], evs[n - 1];
    var t := Run(Initial, init, parse).value;
    var admin := Run(Initial, evs, parse).value.admin;
    if last.SessionEffect? && TeamKey !in last.store && AdminKey in last.store {
      assert parse(evs[n - 1].store[AdminKey]) == Some(admin);
    } else {
      assert t.admin == admin;
      AdminComesFromAdminSlot(init, parse);
      var i :| 0 <= i < |init| && init[i].SessionEffect? && TeamKey !in init[i].store &&
               AdminKey in init[i].store && parse(init[i].store[AdminKey]) == Some(t.admin);
      assert evs[i] == init[i];
    }
  }

  /** Because neither branch of the session effect clears the other identity,
      an admin session followed by a team session leaves both set. */
  lemma BothIdentitiesReachable()
    ensures var parse := (doc: string) => Some(Value(doc));
            var evs := [SessionEffect(map[AdminKey := "{\"id\":\"a1\"}"]),
                        SessionEffect(map[TeamKey := "{\"id\":\"t1\"}"])];
            Run(Initial, evs, parse) ==
              Ok(Initial.(team := Value("{\"id\":\"t1\"}"), admin := Value("{\"id\":\"a1\"}")))
  {
    var parse := (doc: string) => Some(Value(doc));
    var a := SessionEffect(map[AdminKey := "{\"id\":\"a1\"}"]);
    var t := SessionEffect(map[TeamKey := "{\"id\":\"t1\"}"]);
    assert [a, t][..1] == [a] && [a][..0] == [];
    assert TeamKey != AdminKey;
    var s1 := Initial.(admin := Value("{\"id\":\"a1\"}"));
    assert Run(Initial, [a], parse) == Ok(s1);
  }
}
