/** The inventory ledger entry: direction and motive enums, the required
    references into the catalog tree, and a quantity of at least one. */
module InventoryModel {
  import opened Common

  datatype TipoMovimiento = Entrada | Salida

  datatype Motivo = Compra | Venta | Ajuste | Devolucion | Perdida

  /** The motive enum in declaration order. */
  const MOTIVOS: seq<Motivo> := [Compra, Venta, Ajuste, Devolucion, Perdida]

  lemma MotivosCompletos(m: Motivo)
    ensures m in MOTIVOS
  {
  }

  function NombreTipo(t: TipoMovimiento): (r: string)
    ensures r in ["entrada", "salida"]
  {
    match t
    case Entrada => "entrada"
    case Salida => "salida"
  }

  /** The stored string of a direction, if it is one of the enum's values. */
  function TipoDesdeNombre(s: string): (r: Option<TipoMovimiento>)
    ensures r.Some? <==> s in ["entrada", "salida"]
    ensures r.Some? ==> NombreTipo(r.value) == s
  {
    if s == "entrada" then Some(Entrada)
    else if s == "salida" then Some(Salida)
    else None
  }

  lemma TipoIdaYVuelta(t: TipoMovimiento)
    ensures TipoDesdeNombre(NombreTipo(t)) == Some(t)
  {
  }

  function NombreMotivo(m: Motivo): (r: string)
    ensures r in ["compra", "venta", "ajuste", "devolucion", "perdida"]
  {
    match m
    case Compra => "compra"
    case Venta => "venta"
    case Ajuste => "ajuste"
    case Devolucion => "devolucion"
    case Perdida => "perdida"
  }

  /** The stored string of a motive, if it is one of the enum's values. */
  function MotivoDesdeNombre(s: string): (r: Option<Motivo>)
    ensures r.Some? <==> s in ["compra", "venta", "ajuste", "devolucion", "perdida"]
    ensures r.Some? ==> NombreMotivo(r.value) == s
  {
    if s == "compra" then Some(Compra)
    else if s == "venta" then Some(Venta)
    else if s == "ajuste" then Some(Ajuste)
    else if s == "devolucion" then Some(Devolucion)
    else if s == "perdida" then Some(Perdida)
    else None
  }

  lemma MotivoIdaYVuelta(m: Motivo)
    ensures MotivoDesdeNombre(NombreMotivo(m)) == Some(m)
  {
  }

  datatype Referencia = Referencia(tipo: Option<string>, id: Option<Id>)

  /** A ledger entry. The product, variant, quality, colour and user
      references are required; the size is optional. */
  datatype Movimiento = Movimiento(
    producto: Id,
    variante: Id,
    calidad: Id,
    color: Id,
    talla: Option<Id>,
    productoInfo: string,
    tipo: TipoMovimiento,
    cantidad: int,
    motivo: Motivo,
    referencia: Option<Referencia>,
    usuario: Id,
    fecha: int,
    comentarios: Option<string>)

  /** A stored entry describes its product and moves at least one unit. */
  predicate ValidMovimiento(m: Movimiento) {
    m.productoInfo != "" && m.cantidad >= 1
  }
}
