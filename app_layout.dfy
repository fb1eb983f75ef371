/** The application shell: the role-filtered navigation list, the
    active-link test and the mobile navigation drawer. */
module Navigation {
  import opened Common

  /** A navigation entry. `matcher` is the optional custom active test;
      `roles`, when present, lists the only roles that see the entry. */
  datatype NavItem = NavItem(caption: string, to: string, matcher: Option<string -> bool>, roles: Option<seq<Role>>)

  /** The fixed navigation table, in display order. */
  const NavItems: seq<NavItem> := [
    NavItem("Dashboard", "/dashboard", None, None),
    NavItem("Courses", "/courses", None, None),
    NavItem("Assignments", "/assignments", None, None),
    NavItem("Quizzes", "/quizzes", None, None),
    NavItem("Notifications", "/notifications", None, None),
    NavItem("Manage users", "/admin/users", None, Some([Admin]))
  ]

  /** The filter's test: an unrestricted entry is always kept; a restricted
      one only when a role is present and listed. */
  predicate Visible(item: NavItem, role: Option<Role>)
  {
    item.roles.None? || (role.Some? && role.value in item.roles.value)
  }

  /** `xs` is `ys` with some elements dropped and the rest in order. */
  ghost predicate IsSubsequence(xs: seq<NavItem>, ys: seq<NavItem>)
    decreases |ys|
  {
    if xs == [] then true
    else if ys == [] then false
    else (xs[0] == ys[0] && IsSubsequence(xs[1..], ys[1..])) || IsSubsequence(xs, ys[1..])
  }

  /** `navItems.filter(...)`: only visible entries are kept. */
  function FilterNav(items: seq<NavItem>, role: Option<Role>): (r: seq<NavItem>)
    ensures forall i :: 0 <= i < |r| ==> Visible(r[i], role)
    ensures |r| <= |items|
    decreases |items|
  {
    if items == [] then []
    else if Visible(items[0], role) then [items[0]] + FilterNav(items[1..], role)
    else FilterNav(items[1..], role)
  }

  /** The filtered list keeps the table's order: it is the table with some
      entries dropped. */
  lemma {:induction false} FilterNavIsSubsequence(items: seq<NavItem>, role: Option<Role>)
    ensures IsSubsequence(FilterNav(items, role), items)
    decreases |items|
  {
    if items != [] {
      FilterNavIsSubsequence(items[1..], role);
      var r := FilterNav(items, role);
      if Visible(items[0], role) {
        assert r[0] == items[0] && r[1..] == FilterNav(items[1..], role);
      }
    }
  }

  /** Every visible entry is kept. */
  lemma {:induction false} FilterNavKeepsVisible(items: seq<NavItem>, role: Option<Role>, i: nat)
    requires i < |items| && Visible(items[i], role)
    ensures items[i] in FilterNav(items, role)
    decreases |items|
  {
    if i > 0 {
      FilterNavKeepsVisible(items[1..], role, i - 1);
    }
  }

  /** The filter exactly: appending an entry to the list appends it to the
      result when it is visible and leaves the result as it was otherwise.
      Together with `FilterNav([], role) == []` this pins the result down for
      every list, repeated entries included. */
  lemma {:induction false} FilterNavAppend(items: seq<NavItem>, x: NavItem, role: Option<Role>)
    ensures FilterNav(items + [x], role) == FilterNav(items, role) + (if Visible(x, role) then [x] else [])
    decreases |items|
  {
    if items == [] {
      assert [] + [x] == [x];
      assert FilterNav([x], role) == (if Visible(x, role) then [x] else []) + FilterNav([], role);
    } else {
      assert (items + [x])[0] == items[0];
      assert (items + [x])[1..] == items[1..] + [x];
      FilterNavAppend(items[1..], x, role);
    }
  }

  /** Unrestricted entries at the head of a list are all kept. */
  lemma {:induction false} FilterNavKeepsUnrestricted(items: seq<NavItem>, rest: seq<NavItem>, role: Option<Role>)
    requires forall i :: 0 <= i < |items| ==> items[i].roles.None?
    ensures FilterNav(items + rest, role) == items + FilterNav(rest, role)
    decreases |items|
  {
    if items != [] {
      assert (items + rest)[1..] == items[1..] + rest;
      FilterNavKeepsUnrestricted(items[1..], rest, role);
      calc {
        FilterNav(items + rest, role);
        [items[0]] + FilterNav(items[1..] + rest, role);
        [items[0]] + (items[1..] + FilterNav(rest, role));
        { assert items == [items[0]] + items[1..]; }
        items + FilterNav(rest, role);
      }
    } else {
      assert items + rest == rest;
    }
  }

  /** "Manage users" is kept for an Admin and for no one else; the five
      unrestricted entries are kept for every role and without a role. */
  lemma ManageUsersOnlyForAdmin(role: Option<Role>)
    ensures FilterNav(NavItems, role) == NavItems[..5] + (if role == Some(Admin) then [NavItems[5]] else [])
  {
  }

  /** `item.match?.(path) ?? path.startsWith(item.to)` */
  function IsActive(item: NavItem, path: string): (b: bool)
    ensures item.matcher.None? ==> (b <==> StartsWith(path, item.to))
    ensures item.matcher.Some? ==> b == item.matcher.value(path)
  {
    match item.matcher
    case Some(m) => m(path)
    case None => StartsWith(path, item.to)
  }

  /** No entry's target is a prefix of another entry's target. */
  lemma NavTargetsPrefixFree(i: nat, j: nat)
    requires i < |NavItems| && j < |NavItems| && i != j
    ensures !StartsWith(NavItems[j].to, NavItems[i].to)
  {
    assert NavItems[i].to[1] != NavItems[j].to[1] || NavItems[i].to[2] != NavItems[j].to[2];
  }

  /** Whatever the current path, at most one entry of the table is
      highlighted as active. */
  lemma AtMostOneActive(path: string, i: nat, j: nat)
    requires i < |NavItems| && j < |NavItems|
    requires IsActive(NavItems[i], path) && IsActive(NavItems[j], path)
    ensures i == j
  {
    if i != j {
      if |NavItems[i].to| <= |NavItems[j].to| {
        PrefixesOfOneString(path, NavItems[i].to, NavItems[j].to);
        NavTargetsPrefixFree(i, j);
      } else {
        PrefixesOfOneString(path, NavItems[j].to, NavItems[i].to);
        NavTargetsPrefixFree(j, i);
      }
    }
  }

  /** The events that touch the mobile drawer. The backdrop is rendered, and
      so can be clicked, only while the drawer is open. */
  datatype DrawerEvent = MenuButton | CloseButton | BackdropClick | NavLinkClick

  /** `mobileNavOpen`, the mobile navigation drawer. */
  class MobileNav {
    var open: bool

    constructor ()
      ensures !open && !BackdropShown()
    {
      open := false;
    }

    /** The backdrop overlay is rendered only while the drawer is open. */
    predicate BackdropShown()
      reads this
    {
      open
    }

    /** The drawer opens only through the menu button, and the close button,
        the backdrop and every navigation link close it. */
    method Handle(e: DrawerEvent)
      requires e == BackdropClick ==> open
      modifies this
      ensures open <==> e == MenuButton
      ensures BackdropShown() <==> e == MenuButton
    {
      match e {
        case MenuButton => open := true;
        case CloseButton => open := false;
        case BackdropClick => open := false;
        case NavLinkClick => open := false;
      }
    }
  }
}
