/**
 * The statistics route: totals over all sales, counts and amounts per
 * product, per advisor (administrators only), per status and per day of
 * the last thirty days. Every figure is computed over the whole sales
 * table, whoever asks.
 */
module Estadisticas {
  import opened Wrappers
  import opened Db
  import opened Ordering
  import opened Authz

  /** A `GROUP BY` row: the group's name (`producto` or `asesor`), `COUNT(v.id)` and `COALESCE(SUM(cupo), 0)`. */
  datatype GroupStat = GroupStat(nombre: string, cantidad: nat, totalCupo: real)

  /** A per-status row: the status name and its number of sales. */
  datatype EstadoStat = EstadoStat(estado: string, cantidad: nat)

  /** A per-day row: the day, its number of sales and their total amount. */
  datatype FechaStat = FechaStat(fecha: int, cantidad: nat, totalCupo: real)

  function VentaProducto(v: Venta): int { v.productoId }
  function VentaCreador(v: Venta): int { v.usuarioCreadorId }
  function VentaEstado(v: Venta): int { v.estadoId }
  function VentaDay(v: Venta): int { DayOf(v.createdAt) }
  function VentaCupo(v: Venta): real { v.cupoSolicitado }

  function ProductoId(p: Producto): int { p.id }
  function ProductoNombre(p: Producto): string { p.nombre }
  function UsuarioId(u: Usuario): int { u.id }
  function UsuarioNombre(u: Usuario): string { u.nombre }
  function EstadoId(e: EstadoVenta): int { e.id }
  function NegOrden(e: EstadoVenta): int { -e.orden }
  function RolId(r: Rol): int { r.id }

  function Cantidad(g: GroupStat): int { g.cantidad }
  function EstadoCantidad(e: EstadoStat): int { e.cantidad }
  function Fecha(d: int): int { d }

  /** The total amount of the sales whose `key` is `k`; 0 for an empty group (`COALESCE`). */
  function CupoWhere(vs: seq<Venta>, key: Venta -> int, k: int): real {
    if vs == [] then 0.0
    else (if key(vs[0]) == k then vs[0].cupoSolicitado else 0.0) + CupoWhere(vs[1..], key, k)
  }

  /**
   * `FROM groups LEFT JOIN ventas ... GROUP BY`: one row per group, in
   * the groups' order, a group without sales counting 0.
   */
  function GroupRows<G>(ventas: seq<Venta>, key: Venta -> int, groups: seq<G>, gid: G -> int, gname: G -> string)
    : (r: seq<GroupStat>)
    ensures |r| == |groups|
    ensures forall i :: 0 <= i < |r| ==>
      r[i].nombre == gname(groups[i]) && r[i].cantidad == CountKey(ventas, key, gid(groups[i]))
      && r[i].totalCupo == CupoWhere(ventas, key, gid(groups[i]))
  {
    if groups == [] then []
    else [GroupStat(gname(groups[0]), CountKey(ventas, key, gid(groups[0])), CupoWhere(ventas, key, gid(groups[0])))]
         + GroupRows(ventas, key, groups[1..], gid, gname)
  }

  /** The counts of the group rows add up to the per-group counts over the group ids. */
  lemma {:induction false} GroupRowsTotal<G>(ventas: seq<Venta>, key: Venta -> int, groups: seq<G>,
                                              gid: G -> int, gname: G -> string)
    ensures SumInt(GroupRows(ventas, key, groups, gid, gname), Cantidad) == SumCounts(ventas, key, Map(groups, gid))
  {
    if groups != [] {
      GroupRowsTotal(ventas, key, groups[1..], gid, gname);
      assert Map(groups, gid)[1..] == Map(groups[1..], gid);
      assert GroupRows(ventas, key, groups, gid, gname)[1..] == GroupRows(ventas, key, groups[1..], gid, gname);
    }
  }

  // ------------------------------------------------------------------ per product

  /** Sales per product, every product included, `ORDER BY cantidad DESC`. */
  function PorProducto(t: Tables): (r: seq<GroupStat>)
    ensures SortedDesc(r, Cantidad)
    ensures multiset(r) == multiset(GroupRows(t.ventas, VentaProducto, t.productos, ProductoId, ProductoNombre))
    ensures |r| == |t.productos|
  {
    SortDesc(GroupRows(t.ventas, VentaProducto, t.productos, ProductoId, ProductoNombre), Cantidad)
  }

  /**
   * When product ids are unique and every sale refers to an existing
   * product, the per-product counts add up to the number of sales.
   */
  lemma PorProductoCountsAllSales(t: Tables)
    requires Distinct(Map(t.productos, ProductoId))
    requires forall i :: 0 <= i < |t.ventas| ==> t.ventas[i].productoId in Map(t.productos, ProductoId)
    ensures SumInt(PorProducto(t), Cantidad) == |t.ventas|
  {
    var rows := GroupRows(t.ventas, VentaProducto, t.productos, ProductoId, ProductoNombre);
    SumIntPermutation(PorProducto(t), rows, Cantidad);
    GroupRowsTotal(t.ventas, VentaProducto, t.productos, ProductoId, ProductoNombre);
    CountsPartition(t.ventas, VentaProducto, Map(t.productos, ProductoId));
  }

  // ------------------------------------------------------------------ per advisor

  const Asesor: string := "Asesor"

  function IsAsesorRole(r: Rol): bool { r.nombre == Asesor }

  /** The ids the subquery `SELECT id FROM roles WHERE nombre = 'Asesor'` returns. */
  function AsesorRoleIds(roles: seq<Rol>): (r: seq<int>)
    ensures forall i :: 0 <= i < |r| ==> exists j :: 0 <= j < |roles| && roles[j].nombre == Asesor && roles[j].id == r[i]
    ensures forall j :: 0 <= j < |roles| && roles[j].nombre == Asesor ==> roles[j].id in r
  {
    var named := Filter(roles, IsAsesorRole);
    var r := Map(named, RolId);
    assert forall i :: 0 <= i < |r| ==> named[i] in roles;
    assert forall j :: 0 <= j < |roles| && roles[j].nombre == Asesor ==> roles[j] in named;
    r
  }

  /** The users whose role is `rolId`. */
  function UsuariosConRol(usuarios: seq<Usuario>, rolId: int): (r: seq<Usuario>)
    ensures forall i :: 0 <= i < |r| ==> r[i] in usuarios && r[i].rolId == rolId
    ensures forall i :: 0 <= i < |usuarios| && usuarios[i].rolId == rolId ==> usuarios[i] in r
  {
    Filter(usuarios, (u: Usuario) => u.rolId == rolId)
  }

  /**
   * Sales per advisor, `ORDER BY cantidad DESC`. None stands for the
   * database error a scalar subquery raises when it returns more than one
   * row; when it returns none, `rol_id = NULL` matches no user.
   */
  function PorAsesor(t: Tables): (r: Option<seq<GroupStat>>)
    ensures r.None? <==> |AsesorRoleIds(t.roles)| > 1
    ensures r.Some? ==> SortedDesc(r.value, Cantidad)
    ensures AsesorRoleIds(t.roles) == [] ==> r == Some([])
    ensures |AsesorRoleIds(t.roles)| == 1 ==>
      var us := UsuariosConRol(t.usuarios, AsesorRoleIds(t.roles)[0]);
      r.Some? && multiset(r.value) == multiset(GroupRows(t.ventas, VentaCreador, us, UsuarioId, UsuarioNombre))
  {
    var ids := AsesorRoleIds(t.roles);
    if |ids| > 1 then None
    else if ids == [] then Some([])
    else Some(SortDesc(GroupRows(t.ventas, VentaCreador, UsuariosConRol(t.usuarios, ids[0]), UsuarioId, UsuarioNombre),
                       Cantidad))
  }

  // ------------------------------------------------------------------ per status

  /** The statuses `ORDER BY e.orden` (ascending). */
  function EstadosPorOrden(estados: seq<EstadoVenta>): (r: seq<EstadoVenta>)
    ensures forall i, j :: 0 <= i < j < |r| ==> r[i].orden <= r[j].orden
    ensures multiset(r) == multiset(estados)
  {
    var r := SortDesc(estados, NegOrden);
    assert forall i, j :: 0 <= i < j < |r| ==> NegOrden(r[i]) >= NegOrden(r[j]);
    r
  }

  /** One row per status, in the given order. */
  function EstadoRows(ventas: seq<Venta>, estados: seq<EstadoVenta>): (r: seq<EstadoStat>)
    ensures |r| == |estados|
    ensures forall i :: 0 <= i < |r| ==>
      r[i].estado == estados[i].nombre && r[i].cantidad == CountKey(ventas, VentaEstado, estados[i].id)
  {
    if estados == [] then []
    else [EstadoStat(estados[0].nombre, CountKey(ventas, VentaEstado, estados[0].id))] + EstadoRows(ventas, estados[1..])
  }

  lemma {:induction false} EstadoRowsTotal(ventas: seq<Venta>, estados: seq<EstadoVenta>)
    ensures SumInt(EstadoRows(ventas, estados), EstadoCantidad) == SumCounts(ventas, VentaEstado, Map(estados, EstadoId))
  {
    if estados != [] {
      EstadoRowsTotal(ventas, estados[1..]);
      assert Map(estados, EstadoId)[1..] == Map(estados[1..], EstadoId);
      assert EstadoRows(ventas, estados)[1..] == EstadoRows(ventas, estados[1..]);
    }
  }

  /** Sales per status, every status included, ordered by the status order. */
  function PorEstado(t: Tables): (r: seq<EstadoStat>)
    ensures |r| == |t.estados|
    ensures forall i :: 0 <= i < |r| ==>
      var e := EstadosPorOrden(t.estados)[i];
      r[i].estado == e.nombre && r[i].cantidad == CountKey(t.ventas, VentaEstado, e.id)
  {
    EstadoRows(t.ventas, EstadosPorOrden(t.estados))
  }

  /**
   * When status ids are unique and every sale has an existing status, the
   * per-status counts add up to the number of sales.
   */
  lemma PorEstadoCountsAllSales(t: Tables)
    requires Distinct(Map(t.estados, EstadoId))
    requires forall i :: 0 <= i < |t.ventas| ==> t.ventas[i].estadoId in Map(t.estados, EstadoId)
    ensures SumInt(PorEstado(t), EstadoCantidad) == |t.ventas|
  {
    var sorted := EstadosPorOrden(t.estados);
    var ids, sortedIds := Map(t.estados, EstadoId), Map(sorted, EstadoId);
    MapPermutation(t.estados, sorted, EstadoId);
    DistinctPermutation(ids, sortedIds);
    forall v | v in t.ventas
      ensures VentaEstado(v) in sortedIds
    {
      assert v.estadoId in multiset(ids);
    }
    EstadoRowsTotal(t.ventas, sorted);
    CountsPartition(t.ventas, VentaEstado, sortedIds);
  }

  // ------------------------------------------------------------------ per day

  const WindowDays: int := 30
  const MaxDays: nat := 30

  /** `created_at >= CURDATE() - INTERVAL 30 DAY`, with `today` the current day number. */
  predicate InWindow(v: Venta, today: int) {
    DayOf(v.createdAt) >= today - WindowDays
  }

  /** The sales of the window. */
  function Recent(ventas: seq<Venta>, today: int): (r: seq<Venta>)
    ensures forall i :: 0 <= i < |r| ==> r[i] in ventas && InWindow(r[i], today)
    ensures forall i :: 0 <= i < |ventas| && InWindow(ventas[i], today) ==> ventas[i] in r
  {
    Filter(ventas, (v: Venta) => InWindow(v, today))
  }

  /** The days of the window's sales, newest first, at most 30 (`ORDER BY fecha DESC LIMIT 30`). */
  function RecentDays(ventas: seq<Venta>, today: int): (r: seq<int>)
    ensures |r| <= MaxDays
    ensures forall i, j :: 0 <= i < j < |r| ==> r[i] > r[j]
    ensures forall i :: 0 <= i < |r| ==> r[i] in Map(Recent(ventas, today), VentaDay)
    ensures |Dedup(Map(Recent(ventas, today), VentaDay))| <= MaxDays ==>
      forall d :: d in Map(Recent(ventas, today), VentaDay) ==> d in r
    ensures var all := Dedup(Map(Recent(ventas, today), VentaDay));
      |r| == if |all| <= MaxDays then |all| else MaxDays
    ensures forall d :: d in Map(Recent(ventas, today), VentaDay) && d !in r ==> |r| > 0 && d < r[|r| - 1]
  {
    var days := Dedup(Map(Recent(ventas, today), VentaDay));
    var sorted := StrictlyDescending(days);
    var r := Take(sorted, MaxDays);
    forall d | d in Map(Recent(ventas, today), VentaDay) && d !in r
      ensures |r| > 0 && d < r[|r| - 1]
    {
      assert d in sorted;
      var k :| 0 <= k < |sorted| && sorted[k] == d;
      assert forall j :: 0 <= j < |r| ==> r[j] == sorted[j];
      assert k >= |r|;
    }
    r
  }

  /** Distinct days sorted newest first: strictly decreasing, the same days. */
  function StrictlyDescending(days: seq<int>): (r: seq<int>)
    requires Distinct(days)
    ensures |r| == |days|
    ensures forall i, j :: 0 <= i < j < |r| ==> r[i] > r[j]
    ensures forall d :: d in r <==> d in days
  {
    var r := SortDesc(days, Fecha);
    DistinctPermutation(days, r);
    SameMembers(days, r);
    r
  }

  /** One row per day: the day's sales of the window and their total amount. */
  function FechaRows(recent: seq<Venta>, days: seq<int>): (r: seq<FechaStat>)
    ensures |r| == |days|
    ensures forall i :: 0 <= i < |r| ==>
      r[i].fecha == days[i] && r[i].cantidad == CountKey(recent, VentaDay, days[i])
      && r[i].totalCupo == CupoWhere(recent, VentaDay, days[i])
  {
    if days == [] then []
    else [FechaStat(days[0], CountKey(recent, VentaDay, days[0]), CupoWhere(recent, VentaDay, days[0]))]
         + FechaRows(recent, days[1..])
  }

  /** A day on which some sale was made has a count of at least one. */
  lemma CountKeyPositive(vs: seq<Venta>, key: Venta -> int, k: int)
    requires k in Map(vs, key)
    ensures CountKey(vs, key, k) >= 1
  {
    var i :| 0 <= i < |vs| && Map(vs, key)[i] == k;
    assert vs[i] in Filter(vs, x => key(x) == k);
  }

  /** Sales per day over the last thirty days. */
  function PorFecha(ventas: seq<Venta>, today: int): (r: seq<FechaStat>)
    ensures |r| <= MaxDays
    ensures forall i, j :: 0 <= i < j < |r| ==> r[i].fecha > r[j].fecha
    ensures forall i :: 0 <= i < |r| ==> r[i].fecha >= today - WindowDays && r[i].cantidad >= 1
    ensures |r| == |RecentDays(ventas, today)|
    ensures forall i :: 0 <= i < |r| ==>
      && r[i].fecha == RecentDays(ventas, today)[i]
      && r[i].cantidad == CountKey(Recent(ventas, today), VentaDay, r[i].fecha)
      && r[i].totalCupo == CupoWhere(Recent(ventas, today), VentaDay, r[i].fecha)
  {
    var recent := Recent(ventas, today);
    var days := RecentDays(ventas, today);
    forall i | 0 <= i < |days|
      ensures days[i] >= today - WindowDays && CountKey(recent, VentaDay, days[i]) >= 1
    {
      CountKeyPositive(recent, VentaDay, days[i]);
      var k :| 0 <= k < |recent| && Map(recent, VentaDay)[k] == days[i];
    }
    FechaRows(recent, days)
  }

  // ------------------------------------------------------------------ the route

  datatype Stats = Stats(
    totalVentas: nat,
    totalCupo: real,
    ventasPorProducto: seq<GroupStat>,
    ventasPorAsesor: seq<GroupStat>,
    ventasPorEstado: seq<EstadoStat>,
    ventasPorFecha: seq<FechaStat>)

  datatype StatsResponse = Ok(stats: Stats) | Unauthorized | ServerError

  function Status(r: StatsResponse): int {
    match r
    case Ok(_) => 200
    case Unauthorized => 401
    case ServerError => 500
  }

  /** The figures, given the per-advisor rows. `rows[0][0] ? rows : []` keeps the rows, so it is left implicit. */
  function Figures(t: Tables, today: int, porAsesor: seq<GroupStat>): (s: Stats)
    ensures s.totalVentas == |t.ventas| && s.totalCupo == SumReal(t.ventas, VentaCupo)
    ensures s.ventasPorProducto == PorProducto(t) && s.ventasPorAsesor == porAsesor
    ensures s.ventasPorEstado == PorEstado(t) && s.ventasPorFecha == PorFecha(t.ventas, today)
  {
    Stats(|t.ventas|, SumReal(t.ventas, VentaCupo), PorProducto(t), porAsesor, PorEstado(t), PorFecha(t.ventas, today))
  }

  /**
   * GET /api/estadisticas: an administrator gets the per-advisor rows,
   * anyone else an empty list. `today` is the database's current day.
   */
  function Get(header: Option<string>, verifyToken: string -> Option<Claims>, t: Tables, today: int)
    : (r: StatsResponse)
    ensures Authorize(header, verifyToken).Denied? ==> r == Unauthorized
    ensures Authorize(header, verifyToken).Allowed? && !IsAdmin(Authorize(header, verifyToken).claims) ==>
      r.Ok? && r.stats.ventasPorAsesor == []
    ensures Authorize(header, verifyToken).Allowed? && IsAdmin(Authorize(header, verifyToken).claims) ==>
      (r.ServerError? <==> |AsesorRoleIds(t.roles)| > 1)
    ensures r.Ok? ==> r.stats.totalVentas == |t.ventas| && r.stats.totalCupo == SumReal(t.ventas, VentaCupo)
    ensures r.Ok? ==>
      && r.stats.ventasPorProducto == PorProducto(t)
      && r.stats.ventasPorEstado == PorEstado(t)
      && r.stats.ventasPorFecha == PorFecha(t.ventas, today)
    ensures r.Ok? && IsAdmin(Authorize(header, verifyToken).claims) ==>
      PorAsesor(t).Some? && r.stats.ventasPorAsesor == PorAsesor(t).value
  {
    match Authorize(header, verifyToken)
    case Denied => Unauthorized
    case Allowed(claims) =>
      if !IsAdmin(claims) then Ok(Figures(t, today, []))
      else match PorAsesor(t)
        case None => ServerError
        case Some(rows) => Ok(Figures(t, today, rows))
  }

  /**
   * GET as written: for a caller who is not an administrator the
   * per-advisor result stays `[]`, and reading `ventasPorAsesor[0][0]`
   * indexes `undefined`, which throws and ends in 500.
   */
  function GetAsWritten(header: Option<string>, verifyToken: string -> Option<Claims>, t: Tables, today: int)
    : (r: StatsResponse)
    ensures Authorize(header, verifyToken).Denied? ==> r == Unauthorized
  {
    match Authorize(header, verifyToken)
    case Denied => Unauthorized
    case Allowed(claims) =>
      if !IsAdmin(claims) then ServerError
      else match PorAsesor(t)
        case None => ServerError
        case Some(rows) => Ok(Figures(t, today, rows))
  }

  /** As written, every caller who is not an administrator gets 500; the intended route answers 200. */
  lemma NonAdminStatsFailAsWritten(header: Option<string>, verifyToken: string -> Option<Claims>, t: Tables, today: int)
    requires Authorize(header, verifyToken).Allowed? && !IsAdmin(Authorize(header, verifyToken).claims)
    ensures GetAsWritten(header, verifyToken, t, today) == ServerError
    ensures Status(Get(header, verifyToken, t, today)) == 200
  {
  }

  /** For administrators and for rejected callers, the route as written and the intended one agree. */
  lemma StatsAsWrittenAgreesOtherwise(header: Option<string>, verifyToken: string -> Option<Claims>, t: Tables, today: int)
    requires Authorize(header, verifyToken).Denied? || IsAdmin(Authorize(header, verifyToken).claims)
    ensures GetAsWritten(header, verifyToken, t, today) == Get(header, verifyToken, t, today)
  {
  }
}
