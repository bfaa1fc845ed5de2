/**
 * The navigation bar: which links are highlighted for the current location,
 * and the mobile menu's open flag.
 */
module Navbar {
  import opened Strings

  const Root := "/"

  /** The bar's links, in order (the mobile menu repeats them). */
  const NavLinks: seq<string> := ["/resources", "/planning-tools", "/#testimonials", "/#contact"]

  /** `isActive`: the exact location, or any location it begins, except that the root only matches itself. */
  predicate IsActive(location: string, href: string) {
    location == href || (href != Root && StartsWith(location, href))
  }

  /** The root link is highlighted only on the root itself. */
  lemma RootOnlyExact(location: string)
    ensures IsActive(location, Root) <==> location == Root
  {
  }

  /** Every other link is highlighted exactly where the location begins with it; every link on itself. */
  lemma ActiveIffPrefix(location: string, href: string)
    ensures href != Root ==> (IsActive(location, href) <==> StartsWith(location, href))
    ensures IsActive(href, href)
  {
    assert href[..|href|] == href;
    if location == href {
      assert location[..|href|] == href;
    }
  }

  /** There is no separator check: "/resources" is also highlighted on "/resourcesX". */
  lemma NoSeparatorCheck()
    ensures IsActive("/resources/3", "/resources")
    ensures IsActive("/resourcesX", "/resources")
    ensures !IsActive("/resource", "/resources")
  {
    assert "/resources/3"[..10] == "/resources";
    assert "/resourcesX"[..10] == "/resources";
  }

  /** No two links of the bar are highlighted together, since none begins another. */
  lemma AtMostOneLinkActive(location: string, i: nat, j: nat)
    requires i < j < |NavLinks|
    ensures !(IsActive(location, NavLinks[i]) && IsActive(location, NavLinks[j]))
  {
    var a, b := NavLinks[i], NavLinks[j];
    assert |a| >= 3 && |b| >= 3 && (a[1] != b[1] || a[2] != b[2]);
    if IsActive(location, a) {
      assert location[..|a|] == a;
      assert location[1] == a[1] && location[2] == a[2];
    }
  }

  /** `toggleMobileMenu`: the flag is negated. */
  function Toggle(mobileMenuOpen: bool): (r: bool)
    ensures r != mobileMenuOpen
  {
    !mobileMenuOpen
  }

  /** Toggling twice restores the menu. */
  lemma ToggleTwice(mobileMenuOpen: bool)
    ensures Toggle(Toggle(mobileMenuOpen)) == mobileMenuOpen
  {
  }
}
