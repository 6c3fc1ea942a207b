/**
 * The database layer: the rows of the tables the core reads and writes,
 * the lazily created connection pool and `queryOne`.
 */
module Db {
  import opened Wrappers

  /** A `DATETIME`, as whole seconds since the epoch in the session's time zone. */
  type Timestamp = int

  const SecondsPerDay: int := 86400

  /** `DATE(t)`: the calendar day of a timestamp, as a day number. */
  function DayOf(t: Timestamp): int {
    t / SecondsPerDay
  }

  datatype Usuario = Usuario(
    id: int,
    nombre: string,
    email: string,
    password: string,
    rolId: int,
    activo: bool)

  datatype Rol = Rol(id: int, nombre: string, descripcion: Option<string>)

  datatype Producto = Producto(
    id: int,
    nombre: string,
    descripcion: Option<string>,
    requiereTasa: bool,
    requiereFranquicia: bool)

  datatype Franquicia = Franquicia(id: int, nombre: string)

  datatype EstadoVenta = EstadoVenta(id: int, nombre: string, orden: int)

  /** A sale record; franchise, rate and last modifier are nullable, the rest required. */
  datatype Venta = Venta(
    id: int,
    productoId: int,
    cupoSolicitado: real,
    franquiciaId: Option<int>,
    tasa: Option<real>,
    estadoId: int,
    usuarioCreadorId: int,
    usuarioActualizadorId: Option<int>,
    createdAt: Timestamp,
    updatedAt: Timestamp)

  /** A sale joined with the names of what it refers to. */
  datatype VentaCompleta = VentaCompleta(
    venta: Venta,
    productoNombre: string,
    franquiciaNombre: Option<string>,
    estadoNombre: string,
    usuarioCreadorNombre: string,
    usuarioActualizadorNombre: Option<string>)

  /** One status transition of a sale; the previous status is null only for the creation row. */
  datatype HistorialEstado = HistorialEstado(
    id: int,
    ventaId: int,
    estadoAnteriorId: Option<int>,
    estadoNuevoId: int,
    usuarioId: int,
    comentario: Option<string>,
    createdAt: Timestamp)

  /** The contents of the database, one sequence of rows per table. */
  datatype Tables = Tables(
    usuarios: seq<Usuario>,
    roles: seq<Rol>,
    productos: seq<Producto>,
    franquicias: seq<Franquicia>,
    estados: seq<EstadoVenta>,
    ventas: seq<Venta>,
    historial: seq<HistorialEstado>)

  /** A connection pool; connecting and running queries are not part of this model. */
  class Pool {
    const connectionLimit: nat
    const queueLimit: nat
    const waitForConnections: bool

    constructor ()
      ensures connectionLimit == 10 && queueLimit == 0 && waitForConnections
    {
      connectionLimit, queueLimit, waitForConnections := 10, 0, true;
    }
  }

  /** The module-level `pool` variable, null until the first `getDb`. */
  class Connections {
    var pool: Pool?

    constructor ()
      ensures pool == null
    {
      pool := null;
    }

    /** `getDb`: creates the pool on the first call only and returns the cached one. */
    method GetDb() returns (p: Pool)
      modifies this
      ensures pool == p
      ensures old(pool) != null ==> p == old(pool)
      ensures old(pool) == null ==> fresh(p) && p.connectionLimit == 10 && p.queueLimit == 0
    {
      if pool == null {
        pool := new Pool();
      }
      p := pool;
    }
  }

  /** Every call of `getDb` after the first returns the pool the first call created. */
  method GetDbTwice(c: Connections) returns (first: Pool, second: Pool)
    modifies c
    ensures first == second && c.pool == first
    ensures old(c.pool) == null ==> fresh(first)
  {
    first := c.GetDb();
    second := c.GetDb();
  }

  /** `queryOne`: the first row of a result, or null when there is none. */
  function QueryOne<T>(rows: seq<T>): (r: Option<T>)
    ensures r == None <==> rows == []
    ensures r != None ==> r.value == rows[0]
  {
    if |rows| > 0 then Some(rows[0]) else None
  }
}
