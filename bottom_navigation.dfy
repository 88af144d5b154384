/**
  The tab bar of components/bottom-navigation.tsx: a constant table of four
  tabs; a tab is active when the page names its id or the current path is its
  path, and clicking a tab navigates to its path.
*/
module BottomNavigation {

  datatype NavItem = NavItem(id: string, title: string, path: string)

  const NavItems: seq<NavItem> := [
    NavItem("home", "Home", "/dashboard"),
    NavItem("logs", "Activity", "/logs"),
    NavItem("setup", "Add", "/setup"),
    NavItem("settings", "Settings", "/settings")
  ]

  predicate DistinctIds(items: seq<NavItem>) {
    forall i, j :: 0 <= i < j < |items| ==> items[i].id != items[j].id
  }

  predicate DistinctPaths(items: seq<NavItem>) {
    forall i, j :: 0 <= i < j < |items| ==> items[i].path != items[j].path
  }

  /** The table has four tabs with pairwise different ids and pairwise different paths. */
  lemma NavItemsDistinct()
    ensures |NavItems| == 4 && DistinctIds(NavItems) && DistinctPaths(NavItems)
  {
  }

  /** `currentPage === item.id || pathname === item.path` */
  predicate IsActive(item: NavItem, currentPage: string, pathname: string) {
    currentPage == item.id || pathname == item.path
  }

  function CountActive(items: seq<NavItem>, currentPage: string, pathname: string): nat {
    if items == [] then 0
    else (if IsActive(items[0], currentPage, pathname) then 1 else 0) + CountActive(items[1..], currentPage, pathname)
  }

  function CountId(items: seq<NavItem>, currentPage: string): nat {
    if items == [] then 0
    else (if items[0].id == currentPage then 1 else 0) + CountId(items[1..], currentPage)
  }

  function CountPath(items: seq<NavItem>, pathname: string): nat {
    if items == [] then 0
    else (if items[0].path == pathname then 1 else 0) + CountPath(items[1..], pathname)
  }

  /** An active tab matches by id or by path, so the active tabs are at most the id matches plus the path matches. */
  lemma {:induction false} CountActiveBound(items: seq<NavItem>, currentPage: string, pathname: string)
    ensures CountActive(items, currentPage, pathname) <= CountId(items, currentPage) + CountPath(items, pathname)
  {
    if items != [] {
      CountActiveBound(items[1..], currentPage, pathname);
    }
  }

  /** With distinct ids, at most one tab has a given id. */
  lemma {:induction false} CountIdAtMostOne(items: seq<NavItem>, currentPage: string)
    requires DistinctIds(items)
    ensures CountId(items, currentPage) <= 1
    ensures CountId(items, currentPage) == 0 <==> forall i :: 0 <= i < |items| ==> items[i].id != currentPage
  {
    if items != [] {
      assert DistinctIds(items[1..]) by {
        forall i, j | 0 <= i < j < |items[1..]| ensures items[1..][i].id != items[1..][j].id {
          assert items[1..][i] == items[i + 1] && items[1..][j] == items[j + 1];
        }
      }
      CountIdAtMostOne(items[1..], currentPage);
      if items[0].id == currentPage {
        assert forall i :: 0 <= i < |items[1..]| ==> items[1..][i].id != currentPage by {
          forall i | 0 <= i < |items[1..]| ensures items[1..][i].id != currentPage {
            assert items[1..][i] == items[i + 1];
          }
        }
      }
      assert forall i :: 1 <= i < |items| ==> items[i] == items[1..][i - 1];
    }
  }

  /** With distinct paths, at most one tab has a given path. */
  lemma {:induction false} CountPathAtMostOne(items: seq<NavItem>, pathname: string)
    requires DistinctPaths(items)
    ensures CountPath(items, pathname) <= 1
    ensures CountPath(items, pathname) == 0 <==> forall i :: 0 <= i < |items| ==> items[i].path != pathname
  {
    if items != [] {
      assert DistinctPaths(items[1..]) by {
        forall i, j | 0 <= i < j < |items[1..]| ensures items[1..][i].path != items[1..][j].path {
          assert items[1..][i] == items[i + 1] && items[1..][j] == items[j + 1];
        }
      }
      CountPathAtMostOne(items[1..], pathname);
      if items[0].path == pathname {
        assert forall i :: 0 <= i < |items[1..]| ==> items[1..][i].path != pathname by {
          forall i | 0 <= i < |items[1..]| ensures items[1..][i].path != pathname {
            assert items[1..][i] == items[i + 1];
          }
        }
      }
      assert forall i :: 1 <= i < |items| ==> items[i] == items[1..][i - 1];
    }
  }

  /** At most two tabs are active at once: one by id and one by path. */
  lemma AtMostTwoActive(currentPage: string, pathname: string)
    ensures CountActive(NavItems, currentPage, pathname) <= 2
  {
    NavItemsDistinct();
    CountActiveBound(NavItems, currentPage, pathname);
    CountIdAtMostOne(NavItems, currentPage);
    CountPathAtMostOne(NavItems, pathname);
  }

  /** When neither the page nor the path names a tab, no tab is active. */
  lemma NoneActive(currentPage: string, pathname: string)
    requires forall i :: 0 <= i < |NavItems| ==> NavItems[i].id != currentPage && NavItems[i].path != pathname
    ensures CountActive(NavItems, currentPage, pathname) == 0
    ensures forall i :: 0 <= i < |NavItems| ==> !IsActive(NavItems[i], currentPage, pathname)
  {
    NavItemsDistinct();
    CountActiveBound(NavItems, currentPage, pathname);
    CountIdAtMostOne(NavItems, currentPage);
    CountPathAtMostOne(NavItems, pathname);
  }

  /** The tab a screen names, shown on that tab's own path, is the only active tab. */
  lemma OwnTabOnlyActive(k: int)
    requires 0 <= k < |NavItems|
    ensures IsActive(NavItems[k], NavItems[k].id, NavItems[k].path)
    ensures forall i :: 0 <= i < |NavItems| && i != k ==> !IsActive(NavItems[i], NavItems[k].id, NavItems[k].path)
  {
    NavItemsDistinct();
  }

  /** `onClick={() => router.push(item.path)}` */
  function ClickTarget(index: int): (path: string)
    requires 0 <= index < |NavItems|
    ensures path == NavItems[index].path
  {
    NavItems[index].path
  }

  /** Different tabs navigate to different paths, and the path a tab navigates to makes it active. */
  lemma ClickTargetsDistinct(i: int, j: int, currentPage: string)
    requires 0 <= i < |NavItems| && 0 <= j < |NavItems|
    ensures ClickTarget(i) == ClickTarget(j) <==> i == j
    ensures IsActive(NavItems[i], currentPage, ClickTarget(i))
  {
    NavItemsDistinct();
  }
}
