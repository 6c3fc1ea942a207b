/**
 * The sales route: GET lists sales (all of them for an administrator,
 * otherwise only the caller's), newest first, with the sum of their
 * amounts; POST validates a new sale against the schema and the product's
 * rules, inserts it with the initial status 1 and records its creation in
 * the status history.
 */
module Ventas {
  import opened Wrappers
  import opened Db
  import opened Ordering
  import opened Validations
  import opened Authz

  // ------------------------------------------------------------------ joins

  function ProductoId(p: Producto): int { p.id }
  function FranquiciaId(f: Franquicia): int { f.id }
  function EstadoId(e: EstadoVenta): int { e.id }
  function UsuarioId(u: Usuario): int { u.id }

  /** The name of the franchise a sale refers to (`LEFT JOIN franquicias`), null when none matches. */
  function FranquiciaNombre(t: Tables, id: Option<int>): (r: Option<string>)
    ensures r.Some? <==> id.Some? && exists i :: 0 <= i < |t.franquicias| && t.franquicias[i].id == id.value
    ensures r.Some? ==> exists i :: 0 <= i < |t.franquicias| && t.franquicias[i].id == id.value
                                  && t.franquicias[i].nombre == r.value
  {
    if id.None? then None
    else match Find(t.franquicias, FranquiciaId, id.value)
      case None => None
      case Some(f) => Some(f.nombre)
  }

  /** The name of the last modifier (`LEFT JOIN usuarios ua`), null when none matches. */
  function ActualizadorNombre(t: Tables, id: Option<int>): (r: Option<string>)
    ensures r.Some? <==> id.Some? && exists i :: 0 <= i < |t.usuarios| && t.usuarios[i].id == id.value
    ensures r.Some? ==> exists i :: 0 <= i < |t.usuarios| && t.usuarios[i].id == id.value
                                  && t.usuarios[i].nombre == r.value
  {
    if id.None? then None
    else match Find(t.usuarios, UsuarioId, id.value)
      case None => None
      case Some(u) => Some(u.nombre)
  }

  /**
   * A sale joined with the names it refers to. The product, status and
   * creator are inner joins, so a sale whose reference dangles yields no row.
   */
  function Join(t: Tables, v: Venta): (r: Option<VentaCompleta>)
    ensures r.Some? <==>
      Find(t.productos, ProductoId, v.productoId).Some?
      && Find(t.estados, EstadoId, v.estadoId).Some?
      && Find(t.usuarios, UsuarioId, v.usuarioCreadorId).Some?
    ensures r.Some? ==> r.value.venta == v
    ensures r.Some? ==>
      && (exists p :: p in t.productos && p.id == v.productoId && p.nombre == r.value.productoNombre)
      && (exists e :: e in t.estados && e.id == v.estadoId && e.nombre == r.value.estadoNombre)
      && (exists u :: u in t.usuarios && u.id == v.usuarioCreadorId && u.nombre == r.value.usuarioCreadorNombre)
    ensures r.Some? ==>
      && (r.value.franquiciaNombre.Some? <==>
            v.franquiciaId.Some? && exists f :: f in t.franquicias && f.id == v.franquiciaId.value)
      && (r.value.franquiciaNombre.Some? ==>
            exists f :: f in t.franquicias && f.id == v.franquiciaId.value && f.nombre == r.value.franquiciaNombre.value)
      && (r.value.usuarioActualizadorNombre.Some? <==>
            v.usuarioActualizadorId.Some? && exists u :: u in t.usuarios && u.id == v.usuarioActualizadorId.value)
      && (r.value.usuarioActualizadorNombre.Some? ==>
            exists u :: u in t.usuarios && u.id == v.usuarioActualizadorId.value
                        && u.nombre == r.value.usuarioActualizadorNombre.value)
  {
    match (Find(t.productos, ProductoId, v.productoId), Find(t.estados, EstadoId, v.estadoId),
           Find(t.usuarios, UsuarioId, v.usuarioCreadorId))
    case (Some(p), Some(e), Some(uc)) =>
      Some(VentaCompleta(v, p.nombre, FranquiciaNombre(t, v.franquiciaId), e.nombre, uc.nombre,
                         ActualizadorNombre(t, v.usuarioActualizadorId)))
    case _ => None
  }

  /** The joined rows of the sales `vs`, in order. */
  function Joined(t: Tables, vs: seq<Venta>): (r: seq<VentaCompleta>)
    ensures |r| <= |vs|
    ensures forall i :: 0 <= i < |r| ==> r[i].venta in vs && Join(t, r[i].venta) == Some(r[i])
    ensures forall i :: 0 <= i < |vs| && Join(t, vs[i]).Some? ==> Join(t, vs[i]).value in r
  {
    if vs == [] then []
    else
      var rest := Joined(t, vs[1..]);
      match Join(t, vs[0])
      case None => rest
      case Some(row) => [row] + rest
  }

  // ------------------------------------------------------------------ GET

  function CreatedAt(row: VentaCompleta): int { row.venta.createdAt }

  function CupoOf(row: VentaCompleta): real { row.venta.cupoSolicitado }

  /** The rows a caller may see: every sale for an administrator, otherwise the caller's own. */
  function Visible(t: Tables, claims: Claims): seq<VentaCompleta> {
    if IsAdmin(claims) then Joined(t, t.ventas)
    else Filter(Joined(t, t.ventas), (row: VentaCompleta) => row.venta.usuarioCreadorId == claims.userId)
  }

  /** The listing query: the visible rows, `ORDER BY v.created_at DESC`. */
  function List(t: Tables, claims: Claims): (r: seq<VentaCompleta>)
    ensures SortedDesc(r, CreatedAt)
    ensures multiset(r) == multiset(Visible(t, claims))
  {
    SortDesc(Visible(t, claims), CreatedAt)
  }

  /** Every row of the listing is a joined sale the caller may see. */
  lemma ListSound(t: Tables, claims: Claims)
    ensures forall i :: 0 <= i < |List(t, claims)| ==>
      var row := List(t, claims)[i];
      row.venta in t.ventas && Join(t, row.venta) == Some(row)
      && (IsAdmin(claims) || row.venta.usuarioCreadorId == claims.userId)
  {
    var r, rows := List(t, claims), Visible(t, claims);
    forall i | 0 <= i < |r|
      ensures r[i] in rows
    {
      assert r[i] in multiset(r);
    }
  }

  /** Every sale the caller may see and whose references resolve is in the listing. */
  lemma ListComplete(t: Tables, claims: Claims)
    ensures forall i :: 0 <= i < |t.ventas| && Join(t, t.ventas[i]).Some?
                        && (IsAdmin(claims) || t.ventas[i].usuarioCreadorId == claims.userId) ==>
      Join(t, t.ventas[i]).value in List(t, claims)
  {
    var r, rows := List(t, claims), Visible(t, claims);
    forall i | 0 <= i < |t.ventas| && Join(t, t.ventas[i]).Some?
               && (IsAdmin(claims) || t.ventas[i].usuarioCreadorId == claims.userId)
      ensures Join(t, t.ventas[i]).value in r
    {
      var row := Join(t, t.ventas[i]).value;
      assert row in Joined(t, t.ventas);
      assert row in rows;
      assert row in multiset(rows);
    }
  }

  /** A JavaScript number: a finite value or NaN (which JSON serialises as null). */
  datatype JsNumber = Num(value: real) | NaN

  function Plus(a: JsNumber, b: JsNumber): JsNumber {
    if a.Num? && b.Num? then Num(a.value + b.value) else NaN
  }

  /**
   * `elements.reduce((sum, x) => sum + Number(x.cupo_solicitado), acc)`;
   * an element is the amount it carries, or None when it has no such
   * property (then `Number(undefined)` is NaN).
   */
  function ReduceCupo(acc: JsNumber, elements: seq<Option<real>>): JsNumber
    decreases |elements|
  {
    if elements == [] then acc
    else
      var x := if elements[0].Some? then Num(elements[0].value) else NaN;
      ReduceCupo(Plus(acc, x), elements[1..])
  }

  /** The amounts of rows, as elements of the reduction. */
  function Cupos(rows: seq<VentaCompleta>): (r: seq<Option<real>>)
    ensures |r| == |rows|
    ensures forall i :: 0 <= i < |r| ==> r[i] == Some(rows[i].venta.cupoSolicitado)
  {
    if rows == [] then [] else [Some(rows[0].venta.cupoSolicitado)] + Cupos(rows[1..])
  }

  /** Reducing over the rows yields the exact sum of their amounts. */
  lemma {:induction false} ReduceCupoRows(a: real, rows: seq<VentaCompleta>)
    ensures ReduceCupo(Num(a), Cupos(rows)) == Num(a + SumReal(rows, CupoOf))
    decreases |rows|
  {
    if rows != [] {
      assert Cupos(rows)[1..] == Cupos(rows[1..]);
      ReduceCupoRows(a + rows[0].venta.cupoSolicitado, rows[1..]);
    }
  }

  /** Once NaN, always NaN. */
  lemma {:induction false} ReduceCupoNaN(elements: seq<Option<real>>)
    ensures ReduceCupo(NaN, elements) == NaN
    decreases |elements|
  {
    if elements != [] {
      ReduceCupoNaN(elements[1..]);
    }
  }

  datatype ListResponse = Listed(ventas: seq<VentaCompleta>, totalCupo: JsNumber) | ListUnauthorized

  /** GET /api/ventas, with the total taken over the returned rows. */
  function Get(header: Option<string>, verifyToken: string -> Option<Claims>, t: Tables): (r: ListResponse)
    ensures r.Listed? <==> Authorize(header, verifyToken).Allowed?
    ensures r.Listed? ==> r.ventas == List(t, Authorize(header, verifyToken).claims)
    ensures r.Listed? ==> r.totalCupo == Num(SumReal(r.ventas, CupoOf))
  {
    match Authorize(header, verifyToken)
    case Denied => ListUnauthorized
    case Allowed(claims) =>
      var rows := List(t, claims);
      var total := ReduceCupo(Num(0.0), Cupos(rows));
      assert total == Num(SumReal(rows, CupoOf)) by {
        ReduceCupoRows(0.0, rows);
      }
      Listed(rows, total)
  }

  /**
   * The elements the route's `reduce` actually visits: `sql.query` resolves
   * to `[rows, fields]`, and neither array has a `cupo_solicitado` property.
   */
  const QueryPairElements: seq<Option<real>> := [None, None]

  /** GET as written: the sum runs over the `[rows, fields]` pair. */
  function GetAsWritten(header: Option<string>, verifyToken: string -> Option<Claims>, t: Tables): (r: ListResponse)
    ensures r.Listed? <==> Authorize(header, verifyToken).Allowed?
  {
    match Authorize(header, verifyToken)
    case Denied => ListUnauthorized
    case Allowed(claims) => Listed(List(t, claims), ReduceCupo(Num(0.0), QueryPairElements))
  }

  /** As written, the total is NaN (null in the response) whatever the sales. */
  lemma GetAsWrittenTotalIsNaN(header: Option<string>, verifyToken: string -> Option<Claims>, t: Tables)
    requires Authorize(header, verifyToken).Allowed?
    ensures GetAsWritten(header, verifyToken, t).totalCupo == NaN
    ensures Get(header, verifyToken, t).totalCupo != NaN
    ensures GetAsWritten(header, verifyToken, t).ventas == Get(header, verifyToken, t).ventas
  {
    ReduceCupoNaN([None]);
  }

  /** An administrator sees every sale a non-administrator sees. */
  lemma AdminSeesAll(t: Tables, admin: Claims, other: Claims)
    requires IsAdmin(admin)
    ensures forall i :: 0 <= i < |List(t, other)| ==> List(t, other)[i] in List(t, admin)
  {
    ListSound(t, other);
    ListComplete(t, admin);
    forall i | 0 <= i < |List(t, other)|
      ensures List(t, other)[i] in List(t, admin)
    {
      var row := List(t, other)[i];
      var k :| 0 <= k < |t.ventas| && t.ventas[k] == row.venta;
    }
  }

  // ------------------------------------------------------------------ POST

  datatype CreateResponse =
    | Created(venta: Option<VentaCompleta>)
    | Unauthorized
    | InvalidData(details: seq<Issue>)
    | ProductoNoEncontrado
    | RequiereFranquicia
    | RequiereTasa
    | ServerError

  function Status(r: CreateResponse): int {
    match r
    case Created(_) => 201
    case Unauthorized => 401
    case InvalidData(_) => 400
    case ProductoNoEncontrado => 404
    case RequiereFranquicia => 400
    case RequiereTasa => 400
    case ServerError => 500
  }

  /** JavaScript truthiness of `franquicia_id`: undefined, null and 0 are falsy. */
  predicate Truthy(x: Nullish<int>) {
    x.Value? && x.v != 0
  }

  /** How the checks before the insert end: a response, or the sale to insert and its creator. */
  datatype Admission = Rejected(response: CreateResponse) | Admitted(input: VentaInput, userId: int)

  /**
   * The checks of POST in their order: token, JSON body, schema, product
   * exists, franchise when the product requires one, rate when the product
   * requires one. Only the product table is read.
   */
  function Admit(header: Option<string>, body: Option<Json>, verifyToken: string -> Option<Claims>,
                 productos: seq<Producto>): (a: Admission)
    ensures Authorize(header, verifyToken).Denied? ==> a == Rejected(Unauthorized)
    ensures Authorize(header, verifyToken).Allowed? && body.None? ==> a == Rejected(ServerError)
    ensures Authorize(header, verifyToken).Allowed? && body.Some? && ParseVenta(body.value).Invalid? ==>
      a == Rejected(InvalidData(ParseVenta(body.value).issues))
    ensures Authorize(header, verifyToken).Allowed? && body.Some? && ParseVenta(body.value).Valid? ==>
      var input := ParseVenta(body.value).value;
      var p := Find(productos, ProductoId, input.productoId);
      && (p.None? ==> a == Rejected(ProductoNoEncontrado))
      && (p.Some? && p.value.requiereFranquicia && !Truthy(input.franquiciaId) ==> a == Rejected(RequiereFranquicia))
      && (p.Some? && (p.value.requiereFranquicia ==> Truthy(input.franquiciaId)) && p.value.requiereTasa
          && !input.tasa.Value?
          ==> a == Rejected(RequiereTasa))
    ensures a.Admitted? <==>
      && Authorize(header, verifyToken).Allowed?
      && body.Some? && ParseVenta(body.value).Valid?
      && var input := ParseVenta(body.value).value;
         var p := Find(productos, ProductoId, input.productoId);
         p.Some?
         && (p.value.requiereFranquicia ==> Truthy(input.franquiciaId))
         && (p.value.requiereTasa ==> input.tasa.Value?)
    ensures a.Admitted? ==>
      a.input == ParseVenta(body.value).value && a.userId == Authorize(header, verifyToken).claims.userId
    ensures a.Rejected? ==> !a.response.Created?
  {
    match Authorize(header, verifyToken)
    case Denied => Rejected(Unauthorized)
    case Allowed(claims) =>
      if body.None? then Rejected(ServerError)
      else
        match ParseVenta(body.value)
        case Invalid(issues) => Rejected(InvalidData(issues))
        case Valid(input) =>
          match Find(productos, ProductoId, input.productoId)
          case None => Rejected(ProductoNoEncontrado)
          case Some(p) =>
            if p.requiereFranquicia && !Truthy(input.franquiciaId) then Rejected(RequiereFranquicia)
            else if p.requiereTasa && (input.tasa.Null? || input.tasa.Undefined?) then Rejected(RequiereTasa)
            else Admitted(input, claims.userId)
  }

  /** A rate of 0 satisfies a product that requires a rate: only null and absence are refused. */
  lemma ZeroRateAccepted(header: Option<string>, fields: map<string, Json>, verifyToken: string -> Option<Claims>,
                         productos: seq<Producto>)
    requires Authorize(header, verifyToken).Allowed?
    requires ParseVenta(JObject(fields)).Valid? && "tasa" in fields && fields["tasa"] == JNum(0.0)
    ensures Admit(header, Some(JObject(fields)), verifyToken, productos) != Rejected(RequiereTasa)
  {
    assert ParseVenta(JObject(fields)).value.tasa == Value(0.0);
  }

  /** The product lookup happens after the schema: a payload the schema refuses is 400 whatever the products. */
  lemma SchemaBeforeProduct(header: Option<string>, body: Json, verifyToken: string -> Option<Claims>,
                            p1: seq<Producto>, p2: seq<Producto>)
    requires ParseVenta(body).Invalid?
    ensures Admit(header, Some(body), verifyToken, p1) == Admit(header, Some(body), verifyToken, p2)
    ensures Status(Admit(header, Some(body), verifyToken, p1).response) in {400, 401}
  {
  }

  /** The sale row POST inserts: status 1, created and last updated by the caller, absent fields as null. */
  function NewVenta(id: int, input: VentaInput, userId: int, now: Timestamp): (v: Venta)
    ensures v.id == id && v.productoId == input.productoId && v.cupoSolicitado == input.cupoSolicitado
    ensures v.estadoId == 1 && v.usuarioCreadorId == userId && v.usuarioActualizadorId == Some(userId)
    ensures v.franquiciaId.None? <==> !input.franquiciaId.Value?
    ensures v.franquiciaId.Some? ==> v.franquiciaId.value == input.franquiciaId.v
    ensures v.tasa.None? <==> !input.tasa.Value?
    ensures v.tasa.Some? ==> v.tasa.value == input.tasa.v
    ensures v.createdAt == now && v.updatedAt == now
  {
    Venta(id, input.productoId, input.cupoSolicitado, input.franquiciaId.OrNull(), input.tasa.OrNull(),
          1, userId, Some(userId), now, now)
  }

  const CreationComment: string := "Venta creada"

  /** The history row that records a sale's creation: no previous status, new status 1. */
  function CreationRow(id: int, ventaId: int, userId: int, now: Timestamp): (h: HistorialEstado)
    ensures h.id == id && h.ventaId == ventaId && h.usuarioId == userId && h.createdAt == now
    ensures h.estadoAnteriorId.None? && h.estadoNuevoId == 1 && h.comentario == Some(CreationComment)
  {
    HistorialEstado(id, ventaId, None, 1, userId, Some(CreationComment), now)
  }

  // ------------------------------------------------------------------ store invariant

  /** The status of the latest history row of a sale, None when it has none. */
  function LastEstado(hs: seq<HistorialEstado>, ventaId: int): Option<int> {
    if hs == [] then None
    else if hs[|hs| - 1].ventaId == ventaId then Some(hs[|hs| - 1].estadoNuevoId)
    else LastEstado(hs[..|hs| - 1], ventaId)
  }

  /** A sale whose status history starts with a creation row. */
  predicate HasCreationRow(hs: seq<HistorialEstado>, ventaId: int) {
    exists j :: 0 <= j < |hs| && hs[j].ventaId == ventaId && hs[j].estadoAnteriorId.None?
  }

  /**
   * What the sales and history tables keep: sale ids increase with
   * insertion order and lie below the next id; every history row belongs
   * to a sale; every sale has a creation row, and its current status is the
   * status of its latest history row.
   */
  predicate Consistent(ventas: seq<Venta>, historial: seq<HistorialEstado>, nextVentaId: int) {
    && (forall i :: 0 <= i < |ventas| ==> 0 < ventas[i].id < nextVentaId)
    && (forall i, j :: 0 <= i < j < |ventas| ==> ventas[i].id < ventas[j].id)
    && (forall j :: 0 <= j < |historial| ==> exists i :: 0 <= i < |ventas| && ventas[i].id == historial[j].ventaId)
    && (forall i :: 0 <= i < |ventas| ==> HasCreationRow(historial, ventas[i].id))
    && (forall i :: 0 <= i < |ventas| ==> LastEstado(historial, ventas[i].id) == Some(ventas[i].estadoId))
  }

  /** A history row for another sale leaves a sale's latest status alone. */
  lemma LastEstadoAppendOther(hs: seq<HistorialEstado>, h: HistorialEstado, ventaId: int)
    requires h.ventaId != ventaId
    ensures LastEstado(hs + [h], ventaId) == LastEstado(hs, ventaId)
  {
    assert (hs + [h])[..|hs|] == hs;
  }

  /** Appending a new sale together with its creation row keeps the tables consistent. */
  lemma CreatePreservesConsistent(ventas: seq<Venta>, historial: seq<HistorialEstado>, nextVentaId: int,
                                  v: Venta, h: HistorialEstado)
    requires Consistent(ventas, historial, nextVentaId)
    requires v.id == nextVentaId && nextVentaId > 0
    requires h.ventaId == v.id && h.estadoAnteriorId.None? && h.estadoNuevoId == v.estadoId
    ensures Consistent(ventas + [v], historial + [h], nextVentaId + 1)
  {
    var vs, hs := ventas + [v], historial + [h];
    forall i | 0 <= i < |vs|
      ensures HasCreationRow(hs, vs[i].id) && LastEstado(hs, vs[i].id) == Some(vs[i].estadoId)
    {
      if i < |ventas| {
        assert HasCreationRow(historial, ventas[i].id);
        var j :| 0 <= j < |historial| && historial[j].ventaId == ventas[i].id && historial[j].estadoAnteriorId.None?;
        assert hs[j] == historial[j];
        LastEstadoAppendOther(historial, h, ventas[i].id);
      } else {
        assert hs[|historial|] == h;
      }
    }
    forall j | 0 <= j < |hs|
      ensures exists i :: 0 <= i < |vs| && vs[i].id == hs[j].ventaId
    {
      if j < |historial| {
        var i :| 0 <= i < |ventas| && ventas[i].id == historial[j].ventaId;
        assert vs[i] == ventas[i];
      } else {
        assert vs[|ventas|] == v;
      }
    }
  }

  /**
   * The store of the tables the routes read and write, with the next
   * `AUTO_INCREMENT` values of the sales and history tables.
   */
  class Store {
    var db: Tables
    var nextVentaId: int
    var nextHistorialId: int

    predicate Valid()
      reads this
    {
      nextVentaId > 0 && Consistent(db.ventas, db.historial, nextVentaId)
    }

    /** A store holding the reference tables and no sales yet. */
    constructor (usuarios: seq<Usuario>, roles: seq<Rol>, productos: seq<Producto>,
                 franquicias: seq<Franquicia>, estados: seq<EstadoVenta>)
      ensures Valid()
      ensures db == Tables(usuarios, roles, productos, franquicias, estados, [], [])
    {
      db := Tables(usuarios, roles, productos, franquicias, estados, [], []);
      nextVentaId := 1;
      nextHistorialId := 1;
    }

    /** `INSERT INTO ventas`: appends the row and returns its `insertId`. */
    method InsertVenta(input: VentaInput, userId: int, now: Timestamp) returns (id: int)
      modifies this
      ensures id == old(nextVentaId) && nextVentaId == old(nextVentaId) + 1
      ensures db == old(db).(ventas := old(db.ventas) + [NewVenta(id, input, userId, now)])
      ensures nextHistorialId == old(nextHistorialId)
    {
      id := nextVentaId;
      db := db.(ventas := db.ventas + [NewVenta(id, input, userId, now)]);
      nextVentaId := nextVentaId + 1;
    }

    /** `INSERT INTO historial_estados`: appends the creation row of a sale. */
    method InsertCreationRow(ventaId: int, userId: int, now: Timestamp)
      modifies this
      ensures db == old(db).(historial := old(db.historial) + [CreationRow(old(nextHistorialId), ventaId, userId, now)])
      ensures nextHistorialId == old(nextHistorialId) + 1 && nextVentaId == old(nextVentaId)
    {
      db := db.(historial := db.historial + [CreationRow(nextHistorialId, ventaId, userId, now)]);
      nextHistorialId := nextHistorialId + 1;
    }

    /**
     * POST /api/ventas. A rejected request leaves the store untouched; an
     * admitted one inserts the sale, then its creation row (two separate
     * statements), and returns the sale read back through the joins.
     * `now` is the database clock.
     */
    method Post(header: Option<string>, body: Option<Json>, verifyToken: string -> Option<Claims>, now: Timestamp)
      returns (r: CreateResponse)
      requires Valid()
      modifies this
      ensures Valid()
      ensures var a := Admit(header, body, verifyToken, old(db.productos));
        if a.Rejected? then
          r == a.response && db == old(db)
          && nextVentaId == old(nextVentaId) && nextHistorialId == old(nextHistorialId)
        else
          var v := NewVenta(old(nextVentaId), a.input, a.userId, now);
          && db == old(db).(ventas := old(db.ventas) + [v],
                            historial := old(db.historial) + [CreationRow(old(nextHistorialId), v.id, a.userId, now)])
          && nextVentaId == old(nextVentaId) + 1 && nextHistorialId == old(nextHistorialId) + 1
          && r == Created(Join(db, v))
    {
      var a := Admit(header, body, verifyToken, db.productos);
      if a.Rejected? {
        return a.response;
      }
      ghost var before := db;
      ghost var nextBefore := nextVentaId;
      var ventaId := InsertVenta(a.input, a.userId, now);
      InsertCreationRow(ventaId, a.userId, now);
      CreatePreservesConsistent(before.ventas, before.historial, nextBefore,
                                NewVenta(ventaId, a.input, a.userId, now), db.historial[|db.historial| - 1]);
      r := Created(Join(db, NewVenta(ventaId, a.input, a.userId, now)));
    }
  }

  /** A sale just created by a caller appears in that caller's listing once its references resolve. */
  lemma CreatedSaleListed(t: Tables, v: Venta, claims: Claims)
    requires v in t.ventas && v.usuarioCreadorId == claims.userId
    requires Join(t, v).Some?
    ensures Join(t, v).value in List(t, claims)
  {
    ListComplete(t, claims);
    var i :| 0 <= i < |t.ventas| && t.ventas[i] == v;
  }
}
