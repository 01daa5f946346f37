/** The sale record and the line item it shares with the quotation record:
    the state, payment-method, discount-kind and extra-unit enums, and the
    schema's required fields and minimums as predicates. */
module SaleModel {
  import opened Common

  // ---------------------------------------------------------------------
  // Enums

  datatype Estado = Pendiente | Confirmado | Preparado | Liquidado | Entregado | Devuelto

  const ESTADO_POR_DEFECTO: Estado := Pendiente

  function NombreEstado(e: Estado): (r: string)
    ensures r in ESTADOS
  {
    match e
    case Pendiente => "pendiente"
    case Confirmado => "confirmado"
    case Preparado => "preparado"
    case Liquidado => "liquidado"
    case Entregado => "entregado"
    case Devuelto => "devuelto"
  }

  const ESTADOS: seq<string> :=
    ["pendiente", "confirmado", "preparado", "liquidado", "entregado", "devuelto"]

  /** The stored string of a state, if it is one of the enum's values. */
  function EstadoDesdeNombre(s: string): (r: Option<Estado>)
    ensures r.Some? <==> s in ESTADOS
    ensures r.Some? ==> NombreEstado(r.value) == s
  {
    if s == "pendiente" then Some(Pendiente)
    else if s == "confirmado" then Some(Confirmado)
    else if s == "preparado" then Some(Preparado)
    else if s == "liquidado" then Some(Liquidado)
    else if s == "entregado" then Some(Entregado)
    else if s == "devuelto" then Some(Devuelto)
    else None
  }

  lemma EstadoIdaYVuelta(e: Estado)
    ensures EstadoDesdeNombre(NombreEstado(e)) == Some(e)
  {
  }

  datatype MetodoPago = Efectivo | Tarjeta | Transferencia

  function NombreMetodo(m: MetodoPago): string {
    match m
    case Efectivo => "efectivo"
    case Tarjeta => "tarjeta"
    case Transferencia => "transferencia"
  }

  function MetodoDesdeNombre(s: string): (r: Option<MetodoPago>)
    ensures r.Some? <==> s in ["efectivo", "tarjeta", "transferencia"]
    ensures r.Some? ==> NombreMetodo(r.value) == s
  {
    if s == "efectivo" then Some(Efectivo)
    else if s == "tarjeta" then Some(Tarjeta)
    else if s == "transferencia" then Some(Transferencia)
    else None
  }

  lemma MetodoIdaYVuelta(m: MetodoPago)
    ensures MetodoDesdeNombre(NombreMetodo(m)) == Some(m)
  {
  }

  /** A discount is a fixed amount (`cantidad`) or a percentage. */
  datatype TipoDescuento = PorCantidad | Porcentaje

  /** An extra is charged per piece or per square centimetre. */
  datatype UnidadExtra = Pieza | CmCuadrado

  // ---------------------------------------------------------------------
  // Records

  datatype Descuento = Descuento(razon: Option<string>, tipo: Option<TipoDescuento>, valor: Option<int>)

  datatype ParametroCalculo = ParametroCalculo(nombre: Option<string>, valor: Option<int>)

  /** An extra on a line item. `id` is the key quotation creation writes;
      `extraRef` is the key the schema declares. */
  datatype ExtraItem = ExtraItem(
    esTemporal: bool,
    id: Option<Id>,
    extraRef: Option<Id>,
    nombre: string,
    unidad: UnidadExtra,
    monto: int,
    anchoCm: Option<int>,
    largoCm: Option<int>,
    parametroCalculo: Option<ParametroCalculo>)

  datatype InfoProducto = InfoProducto(nombre: string, descripcion: string)
  datatype RefVariante = RefVariante(id: Option<Id>, tipo: Option<string>, nombreCompleto: Option<string>)
  datatype RefColor = RefColor(id: Option<Id>, nombre: Option<string>)
  datatype RefTalla = RefTalla(id: Option<Id>, nombre: Option<string>)

  /** A line item of a sale or a quotation. */
  datatype LineaItem = LineaItem(
    esTemporal: bool,
    productoRef: Option<Id>,
    producto: InfoProducto,
    variante: RefVariante,
    color: RefColor,
    talla: Option<RefTalla>,
    extras: seq<ExtraItem>,
    cantidad: int,
    descuento: Option<Descuento>,
    precioBase: Option<int>,
    precio: Option<int>,
    precioFinal: Option<int>)

  datatype Pago = Pago(razon: Option<string>, monto: int, metodo: MetodoPago, fecha: int)

  datatype Venta = Venta(
    cliente: Id,
    subTotal: int,
    total: int,
    productos: seq<LineaItem>,
    estado: Estado,
    pagos: seq<Pago>,
    ventaEnLinea: bool,
    descuentoGlobal: Option<Descuento>,
    vendedor: Option<Id>,
    restante: int,
    fechaCreacion: int,
    fechaLiquidacion: Option<int>,
    origenCotizacion: Option<Id>)

  // ---------------------------------------------------------------------
  // Schema constraints

  /** A registered extra must reference its catalog entry. */
  predicate ValidExtra(e: ExtraItem) {
    (e.esTemporal || e.extraRef.Some?) && e.nombre != ""
  }

  /** A line item: a product reference unless temporary, product name and
      description, at least one unit, and all three prices. */
  predicate ValidLinea(l: LineaItem) {
    (l.esTemporal || l.productoRef.Some?) &&
    l.producto.nombre != "" && l.producto.descripcion != "" &&
    (forall e :: e in l.extras ==> ValidExtra(e)) &&
    l.cantidad >= 1 &&
    l.precioBase.Some? && l.precio.Some? && l.precioFinal.Some?
  }

  predicate LineasValidas(ls: seq<LineaItem>) {
    forall l :: l in ls ==> ValidLinea(l)
  }

  predicate ValidPago(p: Pago) {
    p.monto >= 0
  }

  /** A stored sale: non-negative amounts, a seller, valid items and payments. */
  predicate ValidVenta(v: Venta) {
    v.subTotal >= 0 && v.total >= 0 && v.restante >= 0 &&
    v.vendedor.Some? &&
    LineasValidas(v.productos) &&
    (forall p :: p in v.pagos ==> ValidPago(p))
  }

  /** A sale document as the schema fills it when only the required and
      explicitly given fields are supplied: pending, no payments, nothing
      owed, not online, no global discount. */
  function VentaConDefectos(cliente: Id, subTotal: int, total: int, productos: seq<LineaItem>,
                            vendedor: Option<Id>, now: int): (v: Venta)
    ensures v.estado == Pendiente && v.pagos == [] && v.restante == 0
    ensures !v.ventaEnLinea && v.descuentoGlobal.None? && v.fechaCreacion == now
    ensures v.fechaLiquidacion.None? && v.origenCotizacion.None?
    ensures subTotal >= 0 && total >= 0 && vendedor.Some? && LineasValidas(productos) ==> ValidVenta(v)
  {
    Venta(cliente, subTotal, total, productos, ESTADO_POR_DEFECTO, [], false, None,
          vendedor, 0, now, None, None)
  }
}
