/** The navigation menu (src/components/layout/Sidebar.jsx): a fixed table of entries,
    each naming the roles that see it, filtered by the signed-in user's role. */
module Sidebar {
  import opened Wrappers
  import opened Js
  import opened Entities

  datatype MenuItem = MenuItem(name: string, path: string, roles: seq<string>)

  /** The two role lists of the table. */
  const Everyone: seq<string> := [Administrador, Colaborador]
  const AdminOnly: seq<string> := [Administrador]

  /** The entries every role sees. */
  const SharedItems: seq<MenuItem> := [
    MenuItem("Dashboard", "/dashboard", Everyone),
    MenuItem("Productos", "/productos", Everyone),
    MenuItem("Movimientos", "/movimientos", Everyone),
    MenuItem("Stock", "/stock", Everyone)]

  /** The entries only administrators see. */
  const AdminItems: seq<MenuItem> := [
    MenuItem("Categorías", "/categorias", AdminOnly),
    MenuItem("Almacenes", "/almacenes", AdminOnly),
    MenuItem("Usuarios", "/usuarios", AdminOnly)]

  /** `menuItems`: four entries for everyone, then three for administrators only. */
  const MenuItems: seq<MenuItem> := SharedItems + AdminItems

  /** `item.roles.includes(userRole)`; an absent role (`user?.rol` of no user) is in no list. */
  predicate Visible(item: MenuItem, role: Option<string>) {
    role.Some? && role.value in item.roles
  }

  /** `menuItems.filter(...)`: the visible entries, in table order. */
  function FilterMenu(items: seq<MenuItem>, role: Option<string>): (menu: seq<MenuItem>)
    ensures IsSubsequence(menu, items)
    ensures forall it :: it in menu <==> it in items && Visible(it, role)
  {
    if items == [] then []
    else
      var rest := FilterMenu(items[1..], role);
      assert forall it :: it in items <==> it == items[0] || it in items[1..];
      if Visible(items[0], role) then [items[0]] + rest else rest
  }

  /** The menu a user with role `role` is shown. */
  function MenuFor(role: Option<string>): seq<MenuItem> {
    FilterMenu(MenuItems, role)
  }

  lemma {:induction false} FilterMenuAppend(a: seq<MenuItem>, b: seq<MenuItem>, role: Option<string>)
    ensures FilterMenu(a + b, role) == FilterMenu(a, role) + FilterMenu(b, role)
  {
    if a == [] {
      assert a + b == b;
    } else {
      assert (a + b)[1..] == a[1..] + b;
      FilterMenuAppend(a[1..], b, role);
    }
  }

  /** Filtering keeps a list whose every entry is visible. */
  lemma {:induction false} FilterAllVisible(items: seq<MenuItem>, role: Option<string>)
    requires forall i | 0 <= i < |items| :: Visible(items[i], role)
    ensures FilterMenu(items, role) == items
  {
    if items != [] {
      FilterAllVisible(items[1..], role);
    }
  }

  /** Filtering empties a list of which no entry is visible. */
  lemma {:induction false} FilterNoneVisible(items: seq<MenuItem>, role: Option<string>)
    requires forall i | 0 <= i < |items| :: !Visible(items[i], role)
    ensures FilterMenu(items, role) == []
  {
    if items != [] {
      FilterNoneVisible(items[1..], role);
    }
  }

  /** An administrator sees all seven entries. */
  lemma AdminSeesAll()
    ensures MenuFor(Some(Administrador)) == MenuItems
    ensures |MenuFor(Some(Administrador))| == 7
  {
    assert forall i | 0 <= i < |MenuItems| :: MenuItems[i].roles[0] == Administrador;
    FilterAllVisible(MenuItems, Some(Administrador));
  }

  /** A colaborador sees Dashboard, Productos, Movimientos and Stock, and nothing else. */
  lemma ColaboradorSeesFour()
    ensures MenuFor(Some(Colaborador)) == SharedItems
    ensures |MenuFor(Some(Colaborador))| == 4
  {
    FilterMenuAppend(SharedItems, AdminItems, Some(Colaborador));
    SharedForColaborador();
    AdminItemsHiddenFromColaborador();
  }

  lemma SharedForColaborador()
    ensures FilterMenu(SharedItems, Some(Colaborador)) == SharedItems
  {
    assert Colaborador in Everyone;
    assert forall i | 0 <= i < |SharedItems| :: SharedItems[i].roles == Everyone;
    FilterAllVisible(SharedItems, Some(Colaborador));
  }

  lemma AdminItemsHiddenFromColaborador()
    ensures FilterMenu(AdminItems, Some(Colaborador)) == []
  {
    assert Administrador[0] != Colaborador[0];
    assert Colaborador !in AdminOnly;
    assert forall i | 0 <= i < |AdminItems| :: AdminItems[i].roles == AdminOnly;
    FilterNoneVisible(AdminItems, Some(Colaborador));
  }

  /** A role other than the two known ones, or no role at all, sees an empty menu. */
  lemma UnknownRoleSeesNothing(role: Option<string>)
    requires role.None? || (role.value != Administrador && role.value != Colaborador)
    ensures MenuFor(role) == []
  {
    assert forall i | 0 <= i < |MenuItems| :: MenuItems[i].roles == Everyone || MenuItems[i].roles == AdminOnly;
    FilterNoneVisible(MenuItems, role);
  }

  /** Everything a colaborador sees, an administrator sees too. */
  lemma ColaboradorMenuWithinAdmin()
    ensures forall it | it in MenuFor(Some(Colaborador)) :: it in MenuFor(Some(Administrador))
  {
    ColaboradorSeesFour();
    AdminSeesAll();
  }
}
