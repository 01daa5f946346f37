/** The quotation record: the sale's line items, totals without a lower
    bound, an expiry fifteen days after creation, an active flag, and the
    optional back-reference to the sale it became. */
module QuotationModel {
  import opened Common
  import opened SaleModel

  /** One day and the validity period, in milliseconds. */
  const DIA_MS: int := 24 * 60 * 60 * 1000
  const VIGENCIA_MS: int := 15 * DIA_MS

  datatype Cotizacion = Cotizacion(
    cliente: Id,
    subTotal: int,
    total: int,
    productos: seq<LineaItem>,
    descuentoGlobal: Option<Descuento>,
    ventaEnLinea: bool,
    fechaCreacion: int,
    expira: int,
    activa: bool,
    convertidaAVenta: Option<Id>)

  /** The schema asks only for valid line items; `subTotal` and `total`
      are required but may be any number. */
  predicate ValidCotizacion(q: Cotizacion) {
    forall l :: l in q.productos ==> ValidLinea(l)
  }

  /** A quotation document as the schema fills it from the given fields:
      created now, expiring fifteen days later, active, not online, not
      converted. */
  function CotizacionConDefectos(cliente: Id, subTotal: int, total: int, productos: seq<LineaItem>,
                                 descuentoGlobal: Option<Descuento>, now: int): (q: Cotizacion)
    ensures q.fechaCreacion == now && q.expira == now + 15 * DIA_MS
    ensures q.activa && !q.ventaEnLinea && q.convertidaAVenta.None?
    ensures q.cliente == cliente && q.subTotal == subTotal && q.total == total && q.productos == productos
  {
    Cotizacion(cliente, subTotal, total, productos, descuentoGlobal, false, now, now + VIGENCIA_MS, true, None)
  }

  /** Unlike a sale, a quotation with negative totals satisfies its schema
      as long as its items do. */
  lemma TotalesSinCota(q: Cotizacion, subTotal: int, total: int)
    ensures ValidCotizacion(q) <==> ValidCotizacion(q.(subTotal := subTotal, total := total))
  {
  }

  /** Illustration: the same totals and items as a sale need not satisfy
      the sale schema. */
  lemma TotalNegativoSoloEnCotizacion(l: LineaItem, vendedor: Id)
    requires ValidLinea(l)
    ensures var q := Cotizacion(0, -1, -1, [l], None, false, 0, VIGENCIA_MS, true, None);
      ValidCotizacion(q) &&
      !ValidVenta(VentaConDefectos(q.cliente, q.subTotal, q.total, q.productos, Some(vendedor), 0))
  {
  }
}
