/** The admin menu: which of its four items is highlighted for the current
    path. */
module AdminNav {
  import opened Common

  const DashboardPath := "/admin/dashboard"
  const ProductsPath := "/admin/products"
  const OrdersPath := "/admin/orders"
  const UsersPath := "/admin/users"

  /** The menu items, in display order. */
  const MenuPaths := [DashboardPath, ProductsPath, OrdersPath, UsersPath]

  /** `isActive`: the dashboard item for the admin root and its own path,
      every other item for any path under its own. */
  predicate IsActive(currentPath: string, path: string)
    ensures path in MenuPaths && IsActive(currentPath, path) ==> StartsWith(currentPath, "/admin")
  {
    if path == DashboardPath then currentPath == "/admin" || currentPath == DashboardPath
    else StartsWith(currentPath, path)
  }

  /** The character after "/admin/" that tells the items apart. */
  const MenuKeys := ['d', 'p', 'o', 'u']

  /** An active item is the dashboard on the admin root, or the current
      path carries the item's key after "/admin/". */
  lemma ActiveKey(currentPath: string, k: nat)
    requires k < |MenuPaths|
    ensures IsActive(currentPath, MenuPaths[k]) ==>
      (k == 0 && currentPath == "/admin") || (|currentPath| > 7 && currentPath[7] == MenuKeys[k])
  {
    if IsActive(currentPath, MenuPaths[k]) && k > 0 {
      var p := MenuPaths[k];
      assert currentPath[..|p|] == p;
      assert currentPath[7] == currentPath[..|p|][7];
    }
  }

  /** No path highlights two items. */
  lemma AtMostOneActive(currentPath: string)
    ensures forall i: nat, j: nat | i < j < |MenuPaths| ::
      !(IsActive(currentPath, MenuPaths[i]) && IsActive(currentPath, MenuPaths[j]))
  {
    forall i: nat, j: nat | i < j < |MenuPaths|
      ensures !(IsActive(currentPath, MenuPaths[i]) && IsActive(currentPath, MenuPaths[j]))
    {
      ActiveKey(currentPath, i);
      ActiveKey(currentPath, j);
    }
  }

  /** The highlighted item, if any, by its index in the menu. */
  function ActiveItem(currentPath: string): (r: Option<nat>)
    ensures r.Some? ==> r.value < |MenuPaths| && IsActive(currentPath, MenuPaths[r.value])
    ensures forall k | 0 <= k < |MenuPaths| && IsActive(currentPath, MenuPaths[k]) :: r == Some(k)
  {
    AtMostOneActive(currentPath);
    if IsActive(currentPath, DashboardPath) then Some(0)
    else if IsActive(currentPath, ProductsPath) then Some(1)
    else if IsActive(currentPath, OrdersPath) then Some(2)
    else if IsActive(currentPath, UsersPath) then Some(3)
    else None
  }

  /** The admin root highlights the dashboard and nothing else. */
  lemma AdminRootHighlightsDashboard()
    ensures ActiveItem("/admin") == Some(0)
    ensures forall k | 1 <= k < |MenuPaths| :: !IsActive("/admin", MenuPaths[k])
  {
    assert IsActive("/admin", MenuPaths[0]);
  }

  /** Every page under a non-dashboard item keeps that item highlighted. */
  lemma SubpageKeepsItem(k: nat, rest: string)
    requires 1 <= k < |MenuPaths|
    ensures ActiveItem(MenuPaths[k] + rest) == Some(k)
  {
    var p := MenuPaths[k];
    assert (p + rest)[..|p|] == p;
    assert IsActive(p + rest, p);
  }
}
