/** The top navigation bar: the entries offered by sign-in state and
    role, the highlight rule, the mobile menu and sign-out. The auth
    context's user and profile are inputs; `signOut`'s outcome is a
    parameter. */
module Navbar {
  import opened Basics
  import opened Lists
  import opened Records

  datatype NavEntry = NavEntry(id: string, title: string)

  function Ids(entries: seq<NavEntry>): (r: seq<string>)
    ensures |r| == |entries| && forall i :: 0 <= i < |entries| ==> r[i] == entries[i].id
  {
    seq(|entries|, i requires 0 <= i < |entries| => entries[i].id)
  }

  const Dashboard: NavEntry := NavEntry("repairer-dashboard", "Tableau de Bord")

  /** `navItems`: signed out only home; signed in home, submit, my
      repairs and the marketplace, then the dashboard for repairers and
      refurbishers. */
  function NavItems(signedIn: bool, profile: Option<Profile>): (r: seq<NavEntry>)
    ensures !signedIn ==> Ids(r) == ["home"]
    ensures signedIn ==> |r| >= 4 && Ids(r)[..4] == ["home", "submit", "my-repairs", "marketplace"]
    ensures signedIn ==> (|r| == 5 <==> IsRepairerOrRefurbisher(profile)) && |r| <= 5
    ensures |r| == 5 ==> r[4] == Dashboard
  {
    if !signedIn then [NavEntry("home", "Accueil")]
    else
      [NavEntry("home", "Accueil"), NavEntry("submit", "Soumettre un Objet"),
       NavEntry("my-repairs", "Mes Réparations"), NavEntry("marketplace", "Place de Marché")]
      + (if IsRepairerOrRefurbisher(profile) then [Dashboard] else [])
  }

  /** The dashboard is offered exactly to signed-in repairers and
      refurbishers; plain users and recyclers never see it. */
  lemma DashboardEntryIff(signedIn: bool, profile: Option<Profile>)
    ensures "repairer-dashboard" in Ids(NavItems(signedIn, profile)) <==>
      (signedIn && IsRepairerOrRefurbisher(profile))
  {
    var ids := Ids(NavItems(signedIn, profile));
    if signedIn && IsRepairerOrRefurbisher(profile) {
      assert ids[4] == "repairer-dashboard";
    } else if signedIn {
      assert ids == ["home", "submit", "my-repairs", "marketplace"];
    }
  }

  /** No page appears twice, so at most one entry is highlighted. */
  lemma NavItemsDistinct(signedIn: bool, profile: Option<Profile>)
    ensures NoDuplicates(Ids(NavItems(signedIn, profile)))
  {
    var ids := Ids(NavItems(signedIn, profile));
    if signedIn && IsRepairerOrRefurbisher(profile) {
      assert ids == ["home", "submit", "my-repairs", "marketplace", "repairer-dashboard"];
    } else if signedIn {
      assert ids == ["home", "submit", "my-repairs", "marketplace"];
    }
  }

  /** An entry is highlighted when it is the current page. */
  predicate Highlighted(currentPage: string, entry: NavEntry) {
    currentPage == entry.id
  }

  /** Whatever the current page, at most one entry of the bar is
      highlighted. */
  lemma AtMostOneHighlighted(signedIn: bool, profile: Option<Profile>, currentPage: string, i: int, j: int)
    requires 0 <= i < |NavItems(signedIn, profile)| && 0 <= j < |NavItems(signedIn, profile)|
    requires Highlighted(currentPage, NavItems(signedIn, profile)[i])
    requires Highlighted(currentPage, NavItems(signedIn, profile)[j])
    ensures i == j
  {
    var ids := Ids(NavItems(signedIn, profile));
    NavItemsDistinct(signedIn, profile);
    assert ids[i] == ids[j];
  }

  /** `profile?.eco_points || 0`. */
  function EcoPointsShown(profile: Option<Profile>): (n: int)
    ensures profile.None? ==> n == 0
    ensures profile.Some? ==> n == profile.value.eco_points
  {
    if profile.Some? then profile.value.eco_points else 0
  }

  /** `profile?.full_name || 'Utilisateur'`: an empty name counts as
      missing. */
  function DisplayName(profile: Option<Profile>): (s: string)
    ensures s != ""
    ensures profile.Some? && profile.value.full_name.Some? && profile.value.full_name.value != "" ==>
      s == profile.value.full_name.value
  {
    if profile.Some? && profile.value.full_name.Some? && profile.value.full_name.value != "" then
      profile.value.full_name.value
    else "Utilisateur"
  }

  class NavbarState {
    var mobileMenuOpen: bool

    constructor ()
      ensures !mobileMenuOpen
    {
      mobileMenuOpen := false;
    }

    method ToggleMobileMenu()
      modifies this
      ensures mobileMenuOpen == !old(mobileMenuOpen)
    {
      mobileMenuOpen := !mobileMenuOpen;
    }

    /** A mobile entry navigates to its page and closes the menu. */
    method ChooseMobileEntry(entry: NavEntry) returns (navigate: string)
      modifies this
      ensures navigate == entry.id && !mobileMenuOpen
    {
      navigate := entry.id;
      mobileMenuOpen := false;
    }

    /** `handleSignOut`: the home page is requested only when signing out
        succeeds; the menu is left as it is. */
    method SignOut(signOutOk: bool) returns (navigate: Option<string>)
      ensures navigate.Some? <==> signOutOk
      ensures navigate.Some? ==> navigate.value == "home"
    {
      navigate := if signOutOk then Some("home") else None;
    }
  }
}
