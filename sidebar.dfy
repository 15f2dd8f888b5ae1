/** The navigation of the sidebar (components/layout/sidebar.tsx): the
    fixed entries, the ones a role sees, and the active entry. */
module Sidebar {
  import opened Common

  datatype NavItem = NavItem(name: string, href: string, roles: seq<string>)

  const AllRoles: seq<string> := ["user", "admin", "super_admin"]

  const DashboardItem: NavItem := NavItem("Painel", "/dashboard", AllRoles)
  const BoardsItem: NavItem := NavItem("Quadros Kanban", "/boards", AllRoles)
  const SuperAdminItem: NavItem := NavItem("Super Admin", "/super-admin", ["super_admin"])

  const Navigation: seq<NavItem> := [DashboardItem, BoardsItem, SuperAdminItem]

  function AllowedFor(userRole: string): NavItem -> bool
  {
    (item: NavItem) => userRole in item.roles
  }

  /** `navigation.filter((item) => item.roles.includes(userRole))`: the
      entries whose roles include the user's, in their fixed order. */
  function VisibleItems(userRole: string): (items: seq<NavItem>)
    ensures forall item :: item in items <==> item in Navigation && userRole in item.roles
    ensures multiset(items) <= multiset(Navigation)
  {
    Filter(Navigation, AllowedFor(userRole))
  }

  /** An entry is highlighted when the path is exactly its link. */
  predicate IsActive(pathname: string, item: NavItem)
  {
    pathname == item.href
  }

  /** Which of the three role names each entry's list holds. */
  lemma RoleLists()
    ensures "user" in AllRoles && "admin" in AllRoles && "super_admin" in AllRoles
    ensures "super_admin" in SuperAdminItem.roles
    ensures "user" !in SuperAdminItem.roles && "admin" !in SuperAdminItem.roles
  {
    assert AllRoles[0] == "user" && AllRoles[1] == "admin" && AllRoles[2] == "super_admin";
    assert SuperAdminItem.roles == ["super_admin"];
  }

  lemma KeepAllOfThree(a: NavItem, b: NavItem, c: NavItem, p: NavItem -> bool)
    requires p(a) && p(b) && p(c)
    ensures Filter([a, b, c], p) == [a, b, c]
  {
    FilterAllOf([a, b, c], p);
  }

  /** Entries that all pass, followed by entries that all fail, filter to
      the first part. */
  lemma {:induction false} KeepPrefix(s: seq<NavItem>, t: seq<NavItem>, p: NavItem -> bool)
    requires forall i :: 0 <= i < |s| ==> p(s[i])
    requires forall i :: 0 <= i < |t| ==> !p(t[i])
    ensures Filter(s + t, p) == s
  {
    FilterAppend(s, t, p);
    FilterAllOf(s, p);
    FilterNone(t, p);
    assert s + [] == s;
  }

  lemma KeepFirstTwoOfThree(a: NavItem, b: NavItem, c: NavItem, p: NavItem -> bool)
    requires p(a) && p(b) && !p(c)
    ensures Filter([a, b, c], p) == [a, b]
  {
    assert [a, b, c] == [a, b] + [c];
    KeepPrefix([a, b], [c], p);
  }

  lemma KeepNoneOfThree(a: NavItem, b: NavItem, c: NavItem, p: NavItem -> bool)
    requires !p(a) && !p(b) && !p(c)
    ensures Filter([a, b, c], p) == []
  {
    FilterNone([a, b, c], p);
  }

  /** The super admin sees every entry. */
  lemma SuperAdminSeesAll()
    ensures VisibleItems("super_admin") == Navigation
  {
    RoleLists();
    KeepAllOfThree(DashboardItem, BoardsItem, SuperAdminItem, AllowedFor("super_admin"));
  }

  /** Users and admins see the dashboard and the boards, not the super-admin
      console. */
  lemma UsersSeeTwo(userRole: string)
    requires userRole == "user" || userRole == "admin"
    ensures VisibleItems(userRole) == [DashboardItem, BoardsItem]
  {
    RoleLists();
    KeepFirstTwoOfThree(DashboardItem, BoardsItem, SuperAdminItem, AllowedFor(userRole));
  }

  /** A role that is none of the three sees nothing. */
  lemma UnknownRoleSeesNothing(userRole: string)
    requires userRole != "user" && userRole != "admin" && userRole != "super_admin"
    ensures VisibleItems(userRole) == []
  {
    var p := AllowedFor(userRole);
    assert !p(DashboardItem) && !p(BoardsItem) && !p(SuperAdminItem);
    KeepNoneOfThree(DashboardItem, BoardsItem, SuperAdminItem, p);
  }

  /** The links are distinct, so at most one visible entry is active. */
  lemma AtMostOneActive(userRole: string, pathname: string)
    ensures forall i, j :: 0 <= i < j < |VisibleItems(userRole)| ==>
      !(IsActive(pathname, VisibleItems(userRole)[i]) && IsActive(pathname, VisibleItems(userRole)[j]))
  {
    var items := VisibleItems(userRole);
    forall i, j | 0 <= i < j < |items|
      ensures !(IsActive(pathname, items[i]) && IsActive(pathname, items[j]))
    {
      assert items[i] in Navigation && items[j] in Navigation;
      VisibleHrefsDistinct(userRole, i, j);
    }
  }

  /** Two positions of the visible list hold different entries of the
      navigation. */
  lemma VisibleHrefsDistinct(userRole: string, i: nat, j: nat)
    requires i < j < |VisibleItems(userRole)|
    ensures VisibleItems(userRole)[i].href != VisibleItems(userRole)[j].href
  {
    assert HrefsDistinct(Navigation) by {
      assert DashboardItem.href != BoardsItem.href;
      assert DashboardItem.href != SuperAdminItem.href;
      assert BoardsItem.href != SuperAdminItem.href;
    }
    DistinctHrefsFilter(Navigation, AllowedFor(userRole));
  }

  predicate HrefsDistinct(items: seq<NavItem>)
  {
    forall i, j :: 0 <= i < j < |items| ==> items[i].href != items[j].href
  }

  lemma {:induction false} DistinctHrefsFilter(items: seq<NavItem>, p: NavItem -> bool)
    requires HrefsDistinct(items)
    ensures HrefsDistinct(Filter(items, p))
  {
    if items != [] {
      var tail := items[1..];
      assert HrefsDistinct(tail) by {
        forall i, j | 0 <= i < j < |tail| ensures tail[i].href != tail[j].href {
          assert tail[i] == items[i + 1] && tail[j] == items[j + 1];
        }
      }
      DistinctHrefsFilter(tail, p);
      var rest := Filter(tail, p);
      forall x | x in rest ensures x.href != items[0].href {
        var k :| 0 <= k < |tail| && tail[k] == x;
        assert items[k + 1] == x;
      }
    }
  }
}
