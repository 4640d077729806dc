/** What the navigation bar shows for a given state: the chrome style, the
    desktop link list chosen by identity, the mobile panel and its fixed
    list, and which links get active-route styling. */
module NavbarView {
  import opened NavbarState

  /** How a link is rendered: a router link with active-route styling
      (`NavItem`, which also draws the underline indicator, and
      `MobileNavItem`, which only switches its classes), a router link
      without it (Register), or a
      plain `<a href>` that leaves the single-page app (the sign-outs). */
  datatype LinkKind = NavItem | RouterLink | Href

  datatype Link = Link(to: string, caption: string, kind: LinkKind)

  const HomeLink := Link("/", "Home", NavItem)
  const AboutLink := Link("/about", "About", NavItem)
  const TeamLink := Link("/team", "Team", NavItem)
  const ProjectLink := Link("/project", "Your Project", NavItem)
  const SubmitLink := Link("/project-submit", "Submit Project", NavItem)
  const TeamSignOut := Link("/logout", "Sign Out", Href)
  const AdminSignOut := Link("/admin-logout", "Sign Out", Href)
  const SignInLink := Link("/login", "Sign In", NavItem)
  const AdminLoginLink := Link("/admin-login", "Admin Login", NavItem)
  const RegisterLink := Link("/register", "Register", RouterLink)

  /** The desktop bar, as the component's conditionals build it: Home and
      About, then the team group when `team` is non-null, then the admin
      sign-out when `admin` is non-null, then the guest links when both are null. */
  function DesktopLinks(team: Json, admin: Json): (r: seq<Link>)
    ensures |r| >= 2 && r[0] == HomeLink && r[1] == AboutLink
    ensures TeamLink in r <==> team.Value?
    ensures TeamSignOut in r <==> team.Value?
    ensures AdminSignOut in r <==> admin.Value?
    ensures SignInLink in r <==> team.Null? && admin.Null?
    ensures AdminLoginLink in r <==> team.Null? && admin.Null?
  {
    [HomeLink, AboutLink]
    + (if team != Null then [TeamLink, ProjectLink, SubmitLink, TeamSignOut] else [])
    + (if admin != Null then [AdminSignOut] else [])
    + (if team == Null && admin == Null then [SignInLink, AdminLoginLink] else [])
  }

  /** The mobile panel's list does not depend on identity. */
  const MobileLinks: seq<Link> := [HomeLink, AboutLink, SignInLink, RegisterLink]

  /** Who may see a desktop link. */
  datatype Visibility = Always | WithTeam | WithAdmin | AsGuest

  datatype Entry = Entry(link: Link, visibility: Visibility)

  predicate Shows(v: Visibility, team: Json, admin: Json)
  {
    match v
    case Always => true
    case WithTeam => team.Value?
    case WithAdmin => admin.Value?
    case AsGuest => team.Null? && admin.Null?
  }

  /** The desktop links as a table: each link once, in bar order, with the
      identities it is shown to. */
  const AlwaysGroup: seq<Entry> := [Entry(HomeLink, Always), Entry(AboutLink, Always)]
  const TeamGroup: seq<Entry> := [Entry(TeamLink, WithTeam), Entry(ProjectLink, WithTeam),
                                  Entry(SubmitLink, WithTeam), Entry(TeamSignOut, WithTeam)]
  const AdminGroup: seq<Entry> := [Entry(AdminSignOut, WithAdmin)]
  const GuestGroup: seq<Entry> := [Entry(SignInLink, AsGuest), Entry(AdminLoginLink, AsGuest)]
  const DesktopTable: seq<Entry> := AlwaysGroup + TeamGroup + AdminGroup + GuestGroup

  /** The links of `table` shown to the given identities, in table order. */
  function Select(table: seq<Entry>, team: Json, admin: Json): (r: seq<Link>)
    ensures |r| <= |table|
  {
    if table == [] then []
    else (if Shows(table[0].visibility, team, admin) then [table[0].link] else []) + Select(table[1..], team, admin)
  }

  function LinksOf(table: seq<Entry>): (r: seq<Link>)
    ensures |r| == |table|
    ensures forall i :: 0 <= i < |table| ==> r[i] == table[i].link
  {
    if table == [] then [] else [table[0].link] + LinksOf(table[1..])
  }

  lemma {:induction false} SelectAppend(a: seq<Entry>, b: seq<Entry>, team: Json, admin: Json)
    ensures Select(a + b, team, admin) == Select(a, team, admin) + Select(b, team, admin)
    decreases |a|
  {
    if a != [] {
      assert (a + b)[0] == a[0] && (a + b)[1..] == a[1..] + b;
      SelectAppend(a[1..], b, team, admin);
    } else {
      assert a + b == b;
    }
  }

  /** A table whose entries share one visibility is shown whole or not at all. */
  lemma {:induction false} SelectUniform(table: seq<Entry>, v: Visibility, team: Json, admin: Json)
    requires forall i :: 0 <= i < |table| ==> table[i].visibility == v
    ensures Select(table, team, admin) == if Shows(v, team, admin) then LinksOf(table) else []
    decreases |table|
  {
    if table != [] {
      SelectUniform(table[1..], v, team, admin);
    }
  }

  /** Each group of the table is shown whole or not at all. */
  lemma GroupSelections(team: Json, admin: Json)
    ensures Select(AlwaysGroup, team, admin) == [HomeLink, AboutLink]
    ensures Select(TeamGroup, team, admin) ==
            if team.Value? then [TeamLink, ProjectLink, SubmitLink, TeamSignOut] else []
    ensures Select(AdminGroup, team, admin) == if admin.Value? then [AdminSignOut] else []
    ensures Select(GuestGroup, team, admin) ==
            if team.Null? && admin.Null? then [SignInLink, AdminLoginLink] else []
  {
    SelectUniform(AlwaysGroup, Always, team, admin);
    assert LinksOf(AlwaysGroup) == [HomeLink, AboutLink];
    SelectUniform(TeamGroup, WithTeam, team, admin);
    assert LinksOf(TeamGroup) == [TeamLink, ProjectLink, SubmitLink, TeamSignOut];
    SelectUniform(AdminGroup, WithAdmin, team, admin);
    assert LinksOf(AdminGroup) == [AdminSignOut];
    SelectUniform(GuestGroup, AsGuest, team, admin);
    assert LinksOf(GuestGroup) == [SignInLink, AdminLoginLink];
  }

  /** The component's conditionals agree with the visibility table. */
  lemma DesktopLinksFollowTable(team: Json, admin: Json)
    ensures DesktopLinks(team, admin) == Select(DesktopTable, team, admin)
  {
    SelectAppend(AlwaysGroup + TeamGroup + AdminGroup, GuestGroup, team, admin);
    SelectAppend(AlwaysGroup + TeamGroup, AdminGroup, team, admin);
    SelectAppend(AlwaysGroup, TeamGroup, team, admin);
    GroupSelections(team, admin);
  }

  /** `isActive` in `NavItem` and `MobileNavItem`: exact string equality with the pathname. */
  predicate IsActive(pathname: string, to: string)
  {
    pathname == to
  }

  /** The links of `links` that get active-route styling at `pathname`. */
  function ActiveLinks(pathname: string, links: seq<Link>): (r: seq<Link>)
    ensures forall l :: l in r <==> l in links && l.kind == NavItem && l.to == pathname
    ensures r == [] <==> !exists l :: l in links && l.kind == NavItem && l.to == pathname
  {
    if links == [] then []
    else
      var rest := ActiveLinks(pathname, links[1..]);
      assert forall l :: l in links <==> l == links[0] || l in links[1..];
      (if links[0].kind == NavItem && IsActive(pathname, links[0].to) then [links[0]] else []) + rest
  }

  /** No two router items of `links` share a target. */
  predicate DistinctItemTargets(links: seq<Link>)
  {
    forall i, j :: 0 <= i < j < |links| && links[i].kind == NavItem && links[j].kind == NavItem ==>
      links[i].to != links[j].to
  }

  lemma {:induction false} AtMostOneActive(pathname: string, links: seq<Link>)
    requires DistinctItemTargets(links)
    ensures |ActiveLinks(pathname, links)| <= 1
    decreases |links|
  {
    if links != [] {
      var rest := links[1..];
      assert DistinctItemTargets(rest) by {
        forall i, j | 0 <= i < j < |rest| && rest[i].kind == NavItem && rest[j].kind == NavItem
          ensures rest[i].to != rest[j].to
        {
          assert rest[i] == links[i + 1] && rest[j] == links[j + 1];
        }
      }
      AtMostOneActive(pathname, rest);
      if links[0].kind == NavItem && IsActive(pathname, links[0].to) {
        assert ActiveLinks(pathname, rest) == [] by {
          forall l | l in rest ensures !(l.kind == NavItem && l.to == pathname) {
            var k :| 0 <= k < |rest| && rest[k] == l;
            assert links[k + 1] == rest[k];
          }
        }
      }
    }
  }

  /** In the desktop bar at most one link is active, and exactly
      one when the pathname equals the target of one of its router items. */
  lemma DesktopActiveIndicator(pathname: string, team: Json, admin: Json)
    ensures |ActiveLinks(pathname, DesktopLinks(team, admin))| <= 1
    ensures |ActiveLinks(pathname, DesktopLinks(team, admin))| == 1 <==>
            exists l :: l in DesktopLinks(team, admin) && l.kind == NavItem && l.to == pathname
  {
    var links := DesktopLinks(team, admin);
    assert DistinctItemTargets(links);
    AtMostOneActive(pathname, links);
    var r := ActiveLinks(pathname, links);
    if exists l :: l in links && l.kind == NavItem && l.to == pathname {
      var l :| l in links && l.kind == NavItem && l.to == pathname;
      assert l in r;
    }
    if |r| == 1 {
      assert r[0] in r;
    }
  }

  /** A nested route activates nothing: matching is exact, not by prefix. */
  lemma NoPrefixMatching(doc: string, admin: Json)
    ensures ActiveLinks("/team/x", DesktopLinks(Value(doc), admin)) == []
    ensures TeamLink in DesktopLinks(Value(doc), admin)
  {
  }

  /** What the bar renders: compact chrome or not, the desktop list, whether
      the mobile panel is shown, and the mobile list. */
  datatype View = View(compact: bool, desktop: seq<Link>, panelVisible: bool, mobile: seq<Link>)

  function Targets(links: seq<Link>): (r: seq<string>)
    ensures |r| == |links|
    ensures forall i :: 0 <= i < |links| ==> r[i] == links[i].to
  {
    if links == [] then [] else [links[0].to] + Targets(links[1..])
  }

  function Render(s: NavState): (v: View)
    ensures v.compact <==> s.scrolled || s.isOpen
    ensures v.panelVisible <==> s.isOpen
    ensures v.desktop == Select(DesktopTable, s.team, s.admin)
    ensures Targets(v.mobile) == ["/", "/about", "/login", "/register"]
  {
    DesktopLinksFollowTable(s.team, s.admin);
    View(s.scrolled || s.isOpen, DesktopLinks(s.team, s.admin), s.isOpen, MobileLinks)
  }

  /** An open menu forces compact chrome even at the top of the page. */
  lemma OpenMenuForcesCompact(s: NavState)
    requires !s.isOpen
    ensures Render(ToggleMenu(OnScroll(s, 0))).compact
    ensures Render(ToggleMenu(OnScroll(s, 0))).panelVisible
  {
  }

  /** The mobile list is the same whatever the identities. */
  lemma MobileIgnoresIdentity(s: NavState, team: Json, admin: Json)
    ensures Render(s.(team := team, admin := admin)).mobile == Render(s).mobile
    ensures Render(s).mobile == MobileLinks
  {
  }

  /** A team session alone, from mount: the team bar with its sign-out. */
  lemma TeamSessionScenario()
    ensures var parse := (doc: string) => Some(Value(doc));
            var r := Run(Initial, [SessionEffect(map[TeamKey := "{\"id\":\"t1\"}"])], parse);
            r.Ok? && Render(r.value).desktop ==
              [HomeLink, AboutLink, TeamLink, ProjectLink, SubmitLink, TeamSignOut]
  {
    var parse := (doc: string) => Some(Value(doc));
    var store := map[TeamKey := "{\"id\":\"t1\"}"];
    var e := SessionEffect(store);
    var t := Initial.(team := Value("{\"id\":\"t1\"}"));
    assert ResolveSession(Initial, store, parse) == Ok(t);
    assert [e][..0] == [];
    assert Run(Initial, [e], parse) == Ok(t);
    assert Render(t).desktop == DesktopLinks(t.team, t.admin);
  }

  /** No session at `/about`: the guest bar, with only About active. */
  lemma GuestAtAboutScenario()
    ensures DesktopLinks(Null, Null) == [HomeLink, AboutLink, SignInLink, AdminLoginLink]
    ensures ActiveLinks("/about", DesktopLinks(Null, Null)) == [AboutLink]
  {
    var links := DesktopLinks(Null, Null);
    assert links == [HomeLink, AboutLink, SignInLink, AdminLoginLink];
    var r := ActiveLinks("/about", links);
    DesktopActiveIndicator("/about", Null, Null);
    assert AboutLink in r;
    assert r[0] in r;
    assert r[0] in links && r[0].to == "/about";
  }

  /** With both identities set, both sign-outs appear after the team group. */
  lemma BothSignOutsShown(teamDoc: string, adminDoc: string)
    ensures DesktopLinks(Value(teamDoc), Value(adminDoc)) ==
            [HomeLink, AboutLink, TeamLink, ProjectLink, SubmitLink, TeamSignOut, AdminSignOut]
  {
  }

  /** An open menu is closed by a change of location. */
  lemma RouteChangeClosesScenario(s: NavState, parse: string -> Option<Json>)
    requires s.isOpen
    ensures Run(s, [LocationChange], parse) == Ok(s.(isOpen := false))
    ensures !Render(Run(s, [LocationChange], parse).value).panelVisible
  {
    assert [LocationChange][..0] == [];
  }
}
