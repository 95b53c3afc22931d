/** The navigation bar's dropdown state: at most one named menu is open. */
module Navbar {
  import opened Basics

  const Services: string := "services"
  const Features: string := "features"

  class NavbarState {
    var openDropdown: Option<string>

    constructor()
      ensures openDropdown.None?
    {
      openDropdown := None;
    }

    /** Whether `menu`'s dropdown is rendered. */
    predicate Visible(menu: string)
      reads this
    {
      openDropdown == Some(menu)
    }

    /** toggleDropdown: closes `menu` if it is the open one, else opens exactly `menu`. */
    method Toggle(menu: string)
      modifies this
      ensures old(openDropdown) == Some(menu) ==> openDropdown.None?
      ensures old(openDropdown) != Some(menu) ==> openDropdown == Some(menu)
    {
      openDropdown := if openDropdown == Some(menu) then None else Some(menu);
    }

    /** handleLinkClick */
    method LinkClicked()
      modifies this
      ensures openDropdown.None?
    {
      openDropdown := None;
    }
  }

  /** Two menus are never both visible. */
  lemma AtMostOneVisible(nav: NavbarState, a: string, b: string)
    requires nav.Visible(a) && nav.Visible(b)
    ensures a == b
  {
  }

  /** Opening one menu hides the other. */
  method OpenServicesThenFeatures(nav: NavbarState)
    modifies nav
    requires nav.openDropdown.None?
    ensures nav.Visible(Features) && !nav.Visible(Services)
  {
    nav.Toggle(Services);
    nav.Toggle(Features);
  }
}
