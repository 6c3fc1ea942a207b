/**
 * The dashboard's sidebar: a fixed list of four entries, the user
 * administration entry shown only to administrators, the entry for the
 * current path highlighted, and a logout button.
 */
module DashboardLayout {
  import opened Wrappers
  import opened ClientSession

  datatype NavItem = NavItem(name: string, href: string, show: bool)

  const Administrador: string := "Administrador"

  /** `usuario?.rol === "Administrador"`. */
  predicate IsAdministrador(usuario: Option<SessionUser>) {
    usuario.Some? && usuario.value.rol == Administrador
  }

  /** The `navigation` array. */
  function Navigation(usuario: Option<SessionUser>): (r: seq<NavItem>)
    ensures |r| == 4
    ensures r[0].name == "Dashboard" && r[1].name == "Radicar Venta"
      && r[2].name == "Usuarios" && r[3].name == "Estadísticas"
    ensures r[0].href == "/dashboard" && r[1].href == "/dashboard/ventas"
      && r[2].href == "/dashboard/usuarios" && r[3].href == "/dashboard/estadisticas"
    ensures r[0].show && r[1].show && r[3].show && (r[2].show <==> IsAdministrador(usuario))
  {
    [NavItem("Dashboard", "/dashboard", true),
     NavItem("Radicar Venta", "/dashboard/ventas", true),
     NavItem("Usuarios", "/dashboard/usuarios", IsAdministrador(usuario)),
     NavItem("Estadísticas", "/dashboard/estadisticas", true)]
  }

  /** `navigation.filter((item) => item.show)`. */
  function Shown(items: seq<NavItem>): (r: seq<NavItem>)
    ensures |r| <= |items|
  {
    if items == [] then []
    else (if items[0].show then [items[0]] else []) + Shown(items[1..])
  }

  /** Keeping the shown entries keeps their order: dropping is all the filter does. */
  lemma {:induction false} ShownKeepsOrder(a: seq<NavItem>, b: seq<NavItem>)
    ensures Shown(a + b) == Shown(a) + Shown(b)
  {
    if a == [] {
      assert a + b == b;
    } else {
      var head := if a[0].show then [a[0]] else [];
      assert (a + b)[0] == a[0] && (a + b)[1..] == a[1..] + b;
      assert Shown(a + b) == head + Shown(a[1..] + b);
      ShownKeepsOrder(a[1..], b);
      assert Shown(a) == head + Shown(a[1..]);
    }
  }

  /** The filter keeps exactly the entries marked to be shown. */
  lemma {:induction false} ShownExactly(items: seq<NavItem>)
    ensures forall i :: 0 <= i < |Shown(items)| ==> Shown(items)[i].show && Shown(items)[i] in items
    ensures forall i :: 0 <= i < |items| && items[i].show ==> items[i] in Shown(items)
  {
    if items != [] {
      ShownExactly(items[1..]);
      var r := Shown(items);
      var rest := Shown(items[1..]);
      assert r == (if items[0].show then [items[0]] else []) + rest;
      forall i | 0 <= i < |items| && items[i].show
        ensures items[i] in r
      {
        if i > 0 {
          assert items[i] == items[1..][i - 1];
        }
      }
    }
  }

  /** An administrator sees all four entries; anyone else the three others, in the same order. */
  lemma MenuByRole(usuario: Option<SessionUser>)
    ensures IsAdministrador(usuario) ==> Shown(Navigation(usuario)) == Navigation(usuario)
    ensures !IsAdministrador(usuario) ==>
      var nav := Navigation(usuario);
      Shown(nav) == [nav[0], nav[1], nav[3]]
  {
    var nav := Navigation(usuario);
    assert nav == [nav[0]] + [nav[1]] + [nav[2]] + [nav[3]];
    ShownKeepsOrder([nav[0]] + [nav[1]] + [nav[2]], [nav[3]]);
    ShownKeepsOrder([nav[0]] + [nav[1]], [nav[2]]);
    ShownKeepsOrder([nav[0]], [nav[1]]);
    assert Shown([nav[0]]) == [nav[0]];
    assert Shown([nav[1]]) == [nav[1]];
    assert Shown([nav[3]]) == [nav[3]];
  }

  /** `pathname === item.href`. */
  predicate IsActive(pathname: string, item: NavItem) {
    pathname == item.href
  }

  /**
   * The entries have distinct paths, so at most one is highlighted. The
   * match is exact, so no entry is highlighted on a path below its own
   * (`/dashboard` stays dark on the pages of the other three entries).
   */
  lemma AtMostOneActive(usuario: Option<SessionUser>, pathname: string)
    ensures forall i, j :: 0 <= i < j < 4 && IsActive(pathname, Navigation(usuario)[i]) ==>
      !IsActive(pathname, Navigation(usuario)[j])
    ensures forall i, rest :: 0 <= i < 4 && rest != "" ==>
      !IsActive(Navigation(usuario)[i].href + rest, Navigation(usuario)[i])
    ensures forall k :: 1 <= k < 4 && pathname == Navigation(usuario)[k].href ==>
      Navigation(usuario)[0].href < pathname && !IsActive(pathname, Navigation(usuario)[0])
  {
    var nav := Navigation(usuario);
    assert nav[0].href != nav[1].href && nav[0].href != nav[2].href && nav[0].href != nav[3].href;
    assert nav[1].href[..11] == "/dashboard/" && nav[2].href[..11] == "/dashboard/" && nav[3].href[..11] == "/dashboard/";
    assert nav[1].href[11] == 'v' && nav[2].href[11] == 'u' && nav[3].href[11] == 'e';
  }

  /** `handleLogout`: clear the session, then go to the login page. */
  method HandleLogout(s: Session)
    modifies s
    ensures s.token.None? && s.usuario.None? && !s.isAuthenticated
    ensures s.visited == old(s.visited) + ["/login"]
  {
    s.Logout();
    s.Push("/login");
  }
}
