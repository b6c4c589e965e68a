/** The mobile bottom bar: the entries offered by sign-in state and role
    and the active rule. */
module BottomNav {
  import opened Basics
  import opened Lists
  import opened Records
  import Navbar

  type NavEntry = Navbar.NavEntry

  /** `navItems`: signed out home and the sign-in entry on the profile
      page; signed in home, submit and my repairs, the dashboard for
      repairers and refurbishers, and the profile last. */
  function NavItems(signedIn: bool, profile: Option<Profile>): (r: seq<NavEntry>)
    ensures !signedIn ==> Navbar.Ids(r) == ["home", "profile"]
    ensures signedIn ==> |r| >= 4 && Navbar.Ids(r)[..3] == ["home", "submit", "my-repairs"]
    ensures signedIn ==> (|r| == 5 <==> IsRepairerOrRefurbisher(profile)) && |r| <= 5
    ensures |r| == 5 ==> r[3].id == "repairer-dashboard"
    ensures r[|r| - 1].id == "profile"
  {
    if !signedIn then [Navbar.NavEntry("home", "Accueil"), Navbar.NavEntry("profile", "Connexion")]
    else
      [Navbar.NavEntry("home", "Accueil"), Navbar.NavEntry("submit", "Soumettre"),
       Navbar.NavEntry("my-repairs", "Mes Réparations")]
      + (if IsRepairerOrRefurbisher(profile) then [Navbar.NavEntry("repairer-dashboard", "Tableau")] else [])
      + [Navbar.NavEntry("profile", "Profil")]
  }

  /** An item is active when it is the current page. */
  predicate IsActive(currentPage: string, entry: NavEntry) {
    currentPage == entry.id
  }

  /** Whatever the current page, at most one item of the bar is active. */
  lemma AtMostOneActive(signedIn: bool, profile: Option<Profile>, currentPage: string, i: int, j: int)
    requires 0 <= i < |NavItems(signedIn, profile)| && 0 <= j < |NavItems(signedIn, profile)|
    requires IsActive(currentPage, NavItems(signedIn, profile)[i])
    requires IsActive(currentPage, NavItems(signedIn, profile)[j])
    ensures i == j
  {
    var ids := Navbar.Ids(NavItems(signedIn, profile));
    NavItemsDistinct(signedIn, profile);
    assert ids[i] == ids[j];
  }

  /** No page appears twice, so at most one item is active. */
  lemma NavItemsDistinct(signedIn: bool, profile: Option<Profile>)
    ensures NoDuplicates(Navbar.Ids(NavItems(signedIn, profile)))
  {
    var ids := Navbar.Ids(NavItems(signedIn, profile));
    if signedIn && IsRepairerOrRefurbisher(profile) {
      assert ids == ["home", "submit", "my-repairs", "repairer-dashboard", "profile"];
    } else if signedIn {
      assert ids == ["home", "submit", "my-repairs", "profile"];
    }
  }

  /** The bottom bar offers the dashboard exactly when the top bar does. */
  lemma DashboardAgreesWithNavbar(signedIn: bool, profile: Option<Profile>)
    ensures "repairer-dashboard" in Navbar.Ids(NavItems(signedIn, profile)) <==>
      "repairer-dashboard" in Navbar.Ids(Navbar.NavItems(signedIn, profile))
  {
    Navbar.DashboardEntryIff(signedIn, profile);
    var ids := Navbar.Ids(NavItems(signedIn, profile));
    if signedIn && IsRepairerOrRefurbisher(profile) {
      assert ids[3] == "repairer-dashboard";
    } else if signedIn {
      assert ids == ["home", "submit", "my-repairs", "profile"];
    }
  }
}
