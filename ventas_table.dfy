/**
 * The sales table: one row per sale with its status shown as a badge, or
 * a single placeholder row when there is nothing to show.
 */
module VentasTable {
  import opened Db

  datatype BadgeVariant = Default | Secondary | Outline

  /** `getEstadoBadgeVariant`: the three named statuses, and the default for any other name. */
  function BadgeFor(estado: string): (b: BadgeVariant)
    ensures estado == "Abierto" ==> b == Default
    ensures estado == "En Proceso" ==> b == Secondary
    ensures estado == "Finalizado" ==> b == Outline
    ensures b == Secondary <==> estado == "En Proceso"
    ensures b == Outline <==> estado == "Finalizado"
  {
    if estado == "Abierto" then Default
    else if estado == "En Proceso" then Secondary
    else if estado == "Finalizado" then Outline
    else Default
  }

  /** A rendered row: the sale's cells and its badge. */
  datatype RowView = RowView(id: int, producto: string, cupo: real, estado: string, badge: BadgeVariant,
                             creador: string, createdAt: int)

  /** The table body: a placeholder cell spanning the columns, or the rows. */
  datatype TableBody = Placeholder(colSpan: nat, text: string) | Rows(rows: seq<RowView>)

  const Columns: nat := 7
  const EmptyText: string := "No hay ventas registradas"

  function ViewOf(v: VentaCompleta): (r: RowView)
    ensures r.id == v.venta.id && r.estado == v.estadoNombre && r.badge == BadgeFor(v.estadoNombre)
  {
    RowView(v.venta.id, v.productoNombre, v.venta.cupoSolicitado, v.estadoNombre, BadgeFor(v.estadoNombre),
            v.usuarioCreadorNombre, v.venta.createdAt)
  }

  function Views(vs: seq<VentaCompleta>): (r: seq<RowView>)
    ensures |r| == |vs|
    ensures forall i :: 0 <= i < |r| ==> r[i] == ViewOf(vs[i])
  {
    if vs == [] then [] else [ViewOf(vs[0])] + Views(vs[1..])
  }

  /** The table given the sales: the placeholder exactly when there are none. */
  function Render(ventas: seq<VentaCompleta>): (b: TableBody)
    ensures b.Placeholder? <==> ventas == []
    ensures b.Placeholder? ==> b.colSpan == Columns && b.text == EmptyText
    ensures b.Rows? ==> |b.rows| == |ventas| && forall i :: 0 <= i < |ventas| ==> b.rows[i] == ViewOf(ventas[i])
  {
    if ventas == [] then Placeholder(Columns, EmptyText) else Rows(Views(ventas))
  }

  /**
   * What the page hands the table: the empty list it starts with, or the
   * `ventas` field of the listing response, which is the query's
   * `[rows, fields]` pair.
   */
  datatype TableProp = Initial | QueryPair(rows: seq<VentaCompleta>)

  /** `ventas.length`: 0 for the initial list, 2 for the pair. */
  function PropLength(p: TableProp): nat {
    if p.Initial? then 0 else 2
  }

  /** The table as written: the placeholder test reads the pair's length, the rows come from `ventas[0]`. */
  function RenderAsWritten(p: TableProp): (b: TableBody)
    ensures b.Placeholder? <==> p.Initial?
  {
    if PropLength(p) == 0 then Placeholder(Columns, EmptyText) else Rows(Views(p.rows))
  }

  /** With no sales the table as written shows an empty body, not the placeholder. */
  lemma NoSalesNoPlaceholderAsWritten()
    ensures RenderAsWritten(QueryPair([])) == Rows([])
    ensures Render([]) == Placeholder(Columns, EmptyText)
  {
  }

  /** With at least one sale both show the same rows. */
  lemma AsWrittenAgreesWithSales(rows: seq<VentaCompleta>)
    requires rows != []
    ensures RenderAsWritten(QueryPair(rows)) == Render(rows)
  {
  }
}
