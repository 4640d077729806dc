/** The `Navbar` component as an object: its four state hooks are fields,
    and each effect or handler that calls a setter is a method that
    overwrites them. Every method is specified by the matching transition
    of `NavbarState`. */
module NavbarComponent {
  import opened NavbarState
  import opened NavbarView

  class Navbar {
    var isOpen: bool
    var scrolled: bool
    var team: Json
    var admin: Json

    function State(): NavState
      reads this
    {
      NavState(isOpen, scrolled, team, admin)
    }

    /** Mounting: every hook starts at its initial value. */
    constructor ()
      ensures State() == Initial
      ensures !isOpen && !scrolled && team == Null && admin == Null
    {
      isOpen, scrolled, team, admin := false, false, Null, Null;
    }

    /** The session effect over the slots of `store`; `parse` stands for
        `JSON.parse`. When it throws, the effect stops before any setter runs. */
    method ResolveSessionEffect(store: Store, parse: string -> Option<Json>) returns (failure: Option<SessionError>)
      modifies this`team, this`admin
      ensures match ResolveSession(old(State()), store, parse)
              case Ok(t) => failure == None && State() == t
              case Err(e) => failure == Some(e) && State() == old(State())
    {
      var teamSession := GetItem(store, TeamKey);
      var adminSession := GetItem(store, AdminKey);
      failure := None;
      if teamSession.Some? {
        var parsed := parse(teamSession.value);
        if parsed.None? {
          return Some(Malformed(TeamKey));
        }
        team := parsed.value;
      } else if adminSession.Some? {
        var parsed := parse(adminSession.value);
        if parsed.None? {
          return Some(Malformed(AdminKey));
        }
        admin := parsed.value;
      } else {
        team := Null;
        admin := Null;
      }
    }

    /** `handleScroll`, given the current `window.scrollY`. */
    method HandleScroll(scrollY: int)
      modifies this`scrolled
      ensures State() == OnScroll(old(State()), scrollY)
      ensures scrolled <==> scrollY > ScrollThreshold
    {
      scrolled := scrollY > ScrollThreshold;
    }

    /** `toggleMenu`. */
    method ToggleMenu()
      modifies this`isOpen
      ensures State() == NavbarState.ToggleMenu(old(State()))
      ensures isOpen == !old(isOpen)
    {
      isOpen := !isOpen;
    }

    /** The location effect, run whenever the router's location changes. */
    method LocationEffect()
      modifies this`isOpen
      ensures State() == OnLocationChange(old(State()))
      ensures !isOpen
    {
      isOpen := false;
    }

    /** The chrome, desktop list and mobile panel for the current state. */
    function Rendered(): View
      reads this
    {
      Render(State())
    }
  }

  /** An admin session, then a team session, on one mounted bar: both
      identities stay set and both sign-outs are shown. */
  method TwoSessionsOneMount()
  {
    var parse := (doc: string) => Some(Value(doc));
    var bar := new Navbar();
    var failure := bar.ResolveSessionEffect(map[AdminKey := "{\"id\":\"a1\"}"], parse);
    assert failure == None;
    failure := bar.ResolveSessionEffect(map[TeamKey := "{\"id\":\"t1\"}"], parse);
    assert failure == None && bar.team.Value? && bar.admin.Value?;
    assert TeamSignOut in bar.Rendered().desktop && AdminSignOut in bar.Rendered().desktop by {
      DesktopLinksFollowTable(bar.team, bar.admin);
    }
    bar.ToggleMenu();
    assert bar.Rendered().compact && bar.Rendered().panelVisible;
    bar.LocationEffect();
    assert !bar.Rendered().panelVisible;
  }
}
