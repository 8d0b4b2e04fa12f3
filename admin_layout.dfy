/** The admin pages' frame: the page title chosen from the current path. */
module AdminLayout {
  import opened Common

  const ProductManagement := "Product Management"
  const UserManagement := "User Management"
  const EditProduct := "Edit Product"
  const AdminDashboard := "Admin Dashboard"

  /** The title as the layout chooses it: from the last path segment alone,
      "Edit Product" when that segment contains "edit". */
  function TitleAsWritten(pathname: string): (t: string)
    ensures t in {ProductManagement, UserManagement, EditProduct, AdminDashboard}
  {
    var path := LastSegment(pathname);
    if path == "products" then ProductManagement
    else if path == "users" then UserManagement
    else if Contains(path, "edit") then EditProduct
    else AdminDashboard
  }

  /** The product edit route is "products/edit/:id", so its last segment is
      the product's id and the edit page is titled "Admin Dashboard". */
  lemma EditPageTitleAsWritten()
    ensures TitleAsWritten("/admin/products/edit/7") == AdminDashboard
  {
    LastSegmentOfJoin("/admin/products/edit", "7");
    assert "/admin/products/edit" + "/" + "7" == "/admin/products/edit/7";
    MissingChar("7", "edit", 0);
  }

  /** The title with the "edit" test made on the whole path: the list
      pages by their last segment, any path through an edit route as the
      edit page, anything else as the dashboard. */
  function Title(pathname: string): (t: string)
    ensures t in {ProductManagement, UserManagement, EditProduct, AdminDashboard}
    ensures t == EditProduct <==> LastSegment(pathname) != "products" && LastSegment(pathname) != "users" && Contains(pathname, "edit")
    ensures t == AdminDashboard ==> !Contains(pathname, "edit")
  {
    var path := LastSegment(pathname);
    if path == "products" then ProductManagement
    else if path == "users" then UserManagement
    else if Contains(pathname, "edit") then EditProduct
    else AdminDashboard
  }

  /** Every product edit page is titled "Edit Product". */
  lemma EditPageTitle(id: string)
    requires forall i | 0 <= i < |id| :: id[i] != '/'
    requires id != "products" && id != "users"
    ensures Title("/admin/products/edit/" + id) == EditProduct
  {
    var pathname := "/admin/products/edit/" + id;
    assert pathname == "/admin/products/edit" + "/" + id;
    LastSegmentOfJoin("/admin/products/edit", id);
    assert pathname[16..20] == "edit";
    ContainsAt(pathname, "edit", 16);
  }

  /** The list pages are titled by their last segment, under any prefix. */
  lemma ListPageTitles(prefix: string)
    ensures Title(prefix + "/products") == ProductManagement
    ensures Title(prefix + "/users") == UserManagement
  {
    LastSegmentOfJoin(prefix, "products");
    assert prefix + "/products" == prefix + "/" + "products";
    LastSegmentOfJoin(prefix, "users");
    assert prefix + "/users" == prefix + "/" + "users";
  }

  /** Every order page is titled "Admin Dashboard". */
  lemma OrderPageTitle(orderId: string)
    requires forall i | 0 <= i < |orderId| :: '0' <= orderId[i] <= '9'
    ensures Title("/admin/orders/" + orderId) == AdminDashboard
  {
    DigitsNotListPage(orderId);
    OrdersPathHasNoT();
    OrdersTitledDashboard("/admin/orders", orderId);
    assert "/admin/orders" + "/" + orderId == "/admin/orders/" + orderId;
  }

  lemma DigitsNotListPage(s: string)
    requires forall i | 0 <= i < |s| :: '0' <= s[i] <= '9'
    ensures forall i | 0 <= i < |s| :: s[i] != '/' && s[i] != 't'
    ensures s != "products" && s != "users"
  {
    assert "products"[0] == 'p' && "users"[0] == 'u';
  }

  lemma OrdersPathHasNoT()
    ensures 't' !in "/admin/orders"
  {
    var p := "/admin/orders";
    forall i | 0 <= i < |p| ensures p[i] != 't' { }
  }

  lemma AdminPathHasNoT()
    ensures 't' !in "/admin"
  {
    var p := "/admin";
    forall i | 0 <= i < |p| ensures p[i] != 't' { }
  }

  lemma AdminPathHasNoE(p: string)
    requires p == "/admin" || p == "/admin/dashboard"
    ensures 'e' !in p
  {
    forall i | 0 <= i < |p| ensures p[i] != 'e' { }
  }

  /** The order list is titled "Admin Dashboard". */
  lemma OrderListTitle()
    ensures Title("/admin/orders") == AdminDashboard
  {
    AdminPathHasNoT();
    OrdersTitledDashboard("/admin", "orders");
    assert "/admin" + "/" + "orders" == "/admin/orders";
  }

  /** The admin root and the dashboard page are titled "Admin Dashboard". */
  lemma DashboardTitles()
    ensures Title("/admin") == AdminDashboard
    ensures Title("/admin/dashboard") == AdminDashboard
  {
    assert "" + "/" + "admin" == "/admin";
    AdminPathHasNoE("/admin");
    NoEditTitledDashboard("", "admin");
    assert "/admin" + "/" + "dashboard" == "/admin/dashboard";
    AdminPathHasNoE("/admin/dashboard");
    NoEditTitledDashboard("/admin", "dashboard");
  }

  /** A path without an 'e' whose last segment is not a list page is the
      dashboard. */
  lemma NoEditTitledDashboard(prefix: string, seg: string)
    requires forall i | 0 <= i < |seg| :: seg[i] != '/'
    requires seg != "products" && seg != "users"
    requires 'e' !in prefix + "/" + seg
    ensures Title(prefix + "/" + seg) == AdminDashboard
  {
    LastSegmentOfJoin(prefix, seg);
    MissingChar(prefix + "/" + seg, "edit", 0);
  }

  /** A path without a 't' whose last segment is not a list page is the
      dashboard. */
  lemma OrdersTitledDashboard(prefix: string, seg: string)
    requires forall i | 0 <= i < |seg| :: seg[i] != '/' && seg[i] != 't'
    requires seg != "products" && seg != "users"
    requires 't' !in prefix
    ensures Title(prefix + "/" + seg) == AdminDashboard
  {
    LastSegmentOfJoin(prefix, seg);
    var p := prefix + "/" + seg;
    assert 't' !in p by {
      forall i | 0 <= i < |p| ensures p[i] != 't' {
        if i >= |prefix| + 1 { assert p[i] == seg[i - |prefix| - 1]; }
        else if i < |prefix| { assert p[i] == prefix[i]; }
      }
    }
    MissingChar(p, "edit", 3);
  }

  /** The two titles agree everywhere except where only the whole path
      mentions "edit". */
  lemma TitlesAgreeOnSegmentEdits(pathname: string)
    requires Contains(LastSegment(pathname), "edit") || !Contains(pathname, "edit")
    ensures Title(pathname) == TitleAsWritten(pathname)
  {
    if Contains(LastSegment(pathname), "edit") {
      LastSegmentIsSuffix(pathname);
      var seg := LastSegment(pathname);
      var i := ContainsWitness(seg, "edit");
      var k := |pathname| - |seg|;
      assert pathname[k + i..k + i + 4] == seg[i..i + 4];
      ContainsAt(pathname, "edit", k + i);
    }
  }
}
