/** The quotation lifecycle: creation with line items resolved against the
    legacy catalog, conversion into a sale at most once and never after
    expiry, the derived status fields, and the listing filters. */
module Quotations {
  import opened Common
  import LegacyCatalog
  import opened SaleModel
  import opened QuotationModel

  /** An entry of the extras catalog. */
  datatype Extra = Extra(nombre: string, unidad: UnidadExtra, monto: int)

  /** One requested line item: ids to resolve plus the client's figures. */
  datatype ItemSolicitud = ItemSolicitud(
    productoRef: Option<Id>,
    variante: Option<Id>,
    color: Option<Id>,
    talla: Option<Id>,
    extras: Option<seq<Id>>,
    cantidad: Option<int>,
    precioBase: Option<int>,
    precio: Option<int>,
    precioFinal: Option<int>,
    descuento: Option<Descuento>)

  datatype SolicitudCotizacion = SolicitudCotizacion(
    cliente: Option<Id>,
    productos: Option<seq<ItemSolicitud>>,
    descuentoGlobal: Option<Descuento>,
    total: Option<int>,
    subTotal: Option<int>)

  /** Why a creation fails: 400 for missing data, 500 for a failed lookup. */
  datatype ErrorCreacion =
    | DatosIncompletos
    | ProductoNoEncontrado(ref: Option<Id>)
    | VarianteNoEncontrada
    | ColorNoEncontrado
    | TallaNoEncontrada
    | ExtraNoEncontrado(extra: Id)
    | Rechazada             // 500: the schema refuses the document on save

  // ---------------------------------------------------------------------
  // Line-item resolution

  function ExtraDe(id: Id, e: Extra): ExtraItem {
    ExtraItem(false, Some(id), None, e.nombre, e.unidad, e.monto, None, None, None)
  }

  /** Looks up every extra; the first unknown id aborts. */
  function ResolverExtras(catalogo: map<Id, Extra>, ids: seq<Id>): (r: Result<seq<ExtraItem>, ErrorCreacion>)
    ensures r.Ok? <==> forall x :: x in ids ==> x in catalogo
    ensures r.Ok? ==>
      |r.value| == |ids| &&
      forall i :: 0 <= i < |ids| ==> r.value[i] == ExtraDe(ids[i], catalogo[ids[i]])
    ensures r.Err? ==> r.error.ExtraNoEncontrado? && r.error.extra in ids && r.error.extra !in catalogo
  {
    if |ids| == 0 then Ok([])
    else if ids[0] !in catalogo then Err(ExtraNoEncontrado(ids[0]))
    else match ResolverExtras(catalogo, ids[1..])
      case Err(e) => Err(e)
      case Ok(rest) => Ok([ExtraDe(ids[0], catalogo[ids[0]])] + rest)
  }

  /** The extras the item asks for; a missing or empty list asks for none. */
  function ExtrasPedidos(item: ItemSolicitud): seq<Id> {
    if item.extras.Some? && |item.extras.value| > 0 then item.extras.value else []
  }

  /** The line item points at the product, variant, colour and (when asked
      for) size the request names, with their names copied. */
  predicate Apunta(p: LegacyCatalog.Producto, item: ItemSolicitud, l: LineaItem) {
    l.variante.id == item.variante && l.color.id == item.color &&
    (l.talla.None? <==> item.talla.None?) &&
    exists v :: v in p.variantes && Some(v.id) == item.variante && l.variante.tipo == v.tipo &&
      exists c :: c in v.colores && Some(c.id) == item.color && l.color.nombre == Some(c.color) &&
        (l.talla.Some? ==> exists t :: t in c.tallas && Some(t.id) == item.talla && l.talla.value.nombre == t.talla)
  }

  function LineaResuelta(item: ItemSolicitud, p: LegacyCatalog.Producto, v: LegacyCatalog.Variante,
                         c: LegacyCatalog.Color, t: Option<LegacyCatalog.Talla>,
                         extras: seq<ExtraItem>): LineaItem {
    LineaItem(
      false, item.productoRef,
      InfoProducto(p.nombre, p.descripcion),
      RefVariante(Some(v.id), v.tipo, None),
      RefColor(Some(c.id), Some(c.color)),
      if t.Some? then Some(RefTalla(Some(t.value.id), t.value.talla)) else None,
      extras, OrNum(item.cantidad, 1), item.descuento, None, item.precio, item.precioFinal)
  }

  /** Resolves one item: product, then variant in it, then colour in that
      variant, then a size only when one is asked for, then the extras. */
  function ResolverItem(productos: map<Id, LegacyCatalog.Producto>, catalogo: map<Id, Extra>,
                        item: ItemSolicitud): (r: Result<LineaItem, ErrorCreacion>)
    ensures r.Ok? ==>
      item.productoRef.Some? && item.productoRef.value in productos &&
      var p := productos[item.productoRef.value];
      r.value.productoRef == item.productoRef &&
      r.value.producto == InfoProducto(p.nombre, p.descripcion) &&
      Apunta(p, item, r.value)
    ensures r.Ok? ==>
      r.value.cantidad == OrNum(item.cantidad, 1) && !r.value.esTemporal &&
      r.value.precio == item.precio && r.value.precioFinal == item.precioFinal &&
      r.value.descuento == item.descuento && r.value.precioBase.None? &&
      |r.value.extras| == |ExtrasPedidos(item)|
    ensures r.Ok? ==>
      ResolverExtras(catalogo, ExtrasPedidos(item)).Ok? &&
      r.value.extras == ResolverExtras(catalogo, ExtrasPedidos(item)).value
    ensures r == Err(ProductoNoEncontrado(item.productoRef)) <==>
      item.productoRef.None? || item.productoRef.value !in productos
    ensures r == Err(VarianteNoEncontrada) ==>
      item.productoRef.Some? && item.productoRef.value in productos &&
      forall v :: v in productos[item.productoRef.value].variantes ==> Some(v.id) != item.variante
    ensures r == Err(ColorNoEncontrado) ==>
      item.productoRef.Some? && item.productoRef.value in productos &&
      exists v :: v in productos[item.productoRef.value].variantes && Some(v.id) == item.variante &&
        forall c :: c in v.colores ==> Some(c.id) != item.color
    ensures r == Err(TallaNoEncontrada) ==>
      item.talla.Some? &&
      item.productoRef.Some? && item.productoRef.value in productos &&
      exists v :: v in productos[item.productoRef.value].variantes && Some(v.id) == item.variante &&
        exists c :: c in v.colores && Some(c.id) == item.color &&
          forall t :: t in c.tallas ==> Some(t.id) != item.talla
    ensures r.Err? && r.error.ExtraNoEncontrado? ==>
      r.error.extra in ExtrasPedidos(item) && r.error.extra !in catalogo
    ensures r != Err(DatosIncompletos)
  {
    if item.productoRef.None? || item.productoRef.value !in productos then Err(ProductoNoEncontrado(item.productoRef))
    else
      var p := productos[item.productoRef.value];
      match Buscar(p.variantes, LegacyCatalog.VarianteId, item.variante)
      case None => Err(VarianteNoEncontrada)
      case Some(v) =>
        match Buscar(v.colores, LegacyCatalog.ColorId, item.color)
        case None => Err(ColorNoEncontrado)
        case Some(c) =>
          var t := if item.talla.Some? then Buscar(c.tallas, LegacyCatalog.TallaId, item.talla) else None;
          if item.talla.Some? && t.None? then Err(TallaNoEncontrada)
          else match ResolverExtras(catalogo, ExtrasPedidos(item))
            case Err(e) => Err(e)
            case Ok(extras) => Ok(LineaResuelta(item, p, v, c, t, extras))
  }

  /** With unique sibling ids, an item whose product, variant, colour,
      requested size and extras all exist always resolves. */
  lemma ResolverItemCompleto(productos: map<Id, LegacyCatalog.Producto>, catalogo: map<Id, Extra>,
                             item: ItemSolicitud, v: LegacyCatalog.Variante, c: LegacyCatalog.Color)
    requires item.productoRef.Some? && item.productoRef.value in productos
    requires LegacyCatalog.IdsUnicos(productos[item.productoRef.value])
    requires v in productos[item.productoRef.value].variantes && item.variante == Some(v.id)
    requires c in v.colores && item.color == Some(c.id)
    requires item.talla.Some? ==> exists t :: t in c.tallas && item.talla == Some(t.id)
    requires forall x :: x in ExtrasPedidos(item) ==> x in catalogo
    ensures ResolverItem(productos, catalogo, item).Ok?
  {
    var p := productos[item.productoRef.value];
    var v' := Buscar(p.variantes, LegacyCatalog.VarianteId, item.variante).value;
    assert v' == v;
    var c' := Buscar(v.colores, LegacyCatalog.ColorId, item.color).value;
    assert c' == c;
    if item.talla.Some? {
      var t :| t in c.tallas && item.talla == Some(t.id);
      assert Buscar(c.tallas, LegacyCatalog.TallaId, item.talla).Some?;
    }
  }

  /** Resolves every item, all or nothing: the first failing item aborts. */
  function ResolverItems(productos: map<Id, LegacyCatalog.Producto>, catalogo: map<Id, Extra>,
                         items: seq<ItemSolicitud>): (r: Result<seq<LineaItem>, ErrorCreacion>)
    ensures r.Ok? <==> forall i :: 0 <= i < |items| ==> ResolverItem(productos, catalogo, items[i]).Ok?
    ensures r.Ok? ==>
      |r.value| == |items| &&
      forall i :: 0 <= i < |items| ==> ResolverItem(productos, catalogo, items[i]) == Ok(r.value[i])
    ensures r.Err? ==> exists i :: 0 <= i < |items| && ResolverItem(productos, catalogo, items[i]) == Err(r.error)
  {
    MapResult(items, (item: ItemSolicitud) => ResolverItem(productos, catalogo, item))
  }

  /** The 400 guard: a client, a non-empty item list, and truthy totals. */
  predicate SolicitudCompleta(s: SolicitudCotizacion) {
    s.cliente.Some? && s.productos.Some? && |s.productos.value| > 0 &&
    TruthyNum(s.total) && TruthyNum(s.subTotal)
  }

  /** The quotation a creation request yields, or why it fails. */
  function ConstruirCotizacion(productos: map<Id, LegacyCatalog.Producto>, catalogo: map<Id, Extra>,
                               s: SolicitudCotizacion, now: int): (r: Result<Cotizacion, ErrorCreacion>)
    ensures r == Err(DatosIncompletos) <==> !SolicitudCompleta(s)
    ensures s.total == Some(0) || s.subTotal == Some(0) ==> r == Err(DatosIncompletos)
    ensures SolicitudCompleta(s) ==>
      (r.Ok? <==> forall i :: 0 <= i < |s.productos.value| ==> ResolverItem(productos, catalogo, s.productos.value[i]).Ok?)
    ensures r.Ok? ==>
      SolicitudCompleta(s) &&
      r.value.cliente == s.cliente.value && r.value.total == s.total.value &&
      r.value.subTotal == s.subTotal.value && r.value.descuentoGlobal == s.descuentoGlobal
    ensures r.Ok? ==>
      r.value.fechaCreacion == now && r.value.expira == now + 15 * DIA_MS &&
      r.value.activa && r.value.convertidaAVenta.None?
    ensures r.Ok? ==>
      |r.value.productos| == |s.productos.value| &&
      forall i :: 0 <= i < |r.value.productos| ==>
        ResolverItem(productos, catalogo, s.productos.value[i]) == Ok(r.value.productos[i])
  {
    if !SolicitudCompleta(s) then Err(DatosIncompletos)
    else match ResolverItems(productos, catalogo, s.productos.value)
      case Err(e) => Err(e)
      case Ok(items) =>
        Ok(CotizacionConDefectos(s.cliente.value, s.subTotal.value, s.total.value, items, s.descuentoGlobal, now))
  }

  /** As written, a created quotation never satisfies its schema: no
      item carries the required `precioBase`. */
  lemma CotizacionCreadaIncumpleEsquema(productos: map<Id, LegacyCatalog.Producto>, catalogo: map<Id, Extra>,
                                        s: SolicitudCotizacion, now: int)
    requires ConstruirCotizacion(productos, catalogo, s, now).Ok?
    ensures !ValidCotizacion(ConstruirCotizacion(productos, catalogo, s, now).value)
  {
    var q := ConstruirCotizacion(productos, catalogo, s, now).value;
    assert ResolverItem(productos, catalogo, s.productos.value[0]) == Ok(q.productos[0]);
    assert q.productos[0] in q.productos && !ValidLinea(q.productos[0]);
  }

  /** As written, every resolved extra is refused by the schema: the id is
      written under `id`, and the required `extraRef` is missing. */
  lemma ExtrasResueltosIncumplenEsquema(catalogo: map<Id, Extra>, ids: seq<Id>)
    requires ResolverExtras(catalogo, ids).Ok?
    ensures forall e :: e in ResolverExtras(catalogo, ids).value ==> !ValidExtra(e)
  {
    var es := ResolverExtras(catalogo, ids).value;
    forall e | e in es
      ensures !ValidExtra(e)
    {
      var i :| 0 <= i < |es| && es[i] == e;
      assert e == ExtraDe(ids[i], catalogo[ids[i]]);
    }
  }

  /** The schema's key for a resolved extra. */
  function ConExtraRef(e: ExtraItem): (r: ExtraItem)
    ensures r.extraRef == e.id
    ensures r.(extraRef := e.extraRef) == e
  {
    e.(extraRef := e.id)
  }

  /** A resolved item as the schema needs it: the client's base price, and
      each extra under `extraRef`; everything else unchanged. */
  function LineaCorregida(l: LineaItem, item: ItemSolicitud): (r: LineaItem)
    ensures r.precioBase == item.precioBase
    ensures |r.extras| == |l.extras| && forall j :: 0 <= j < |l.extras| ==> r.extras[j] == ConExtraRef(l.extras[j])
    ensures r.(precioBase := l.precioBase, extras := l.extras) == l
  {
    l.(precioBase := item.precioBase, extras := MapSeq(l.extras, ConExtraRef))
  }

  function LineasCorregidas(ls: seq<LineaItem>, items: seq<ItemSolicitud>): (r: seq<LineaItem>)
    requires |ls| == |items|
    ensures |r| == |ls| && forall i :: 0 <= i < |ls| ==> r[i] == LineaCorregida(ls[i], items[i])
  {
    seq(|ls|, i requires 0 <= i < |ls| => LineaCorregida(ls[i], items[i]))
  }

  /** Creation as evidently intended: the same checks and lookups, with
      each item's base price copied from the request and each extra
      written under `extraRef`. */
  function ConstruirCotizacionCorregida(productos: map<Id, LegacyCatalog.Producto>, catalogo: map<Id, Extra>,
                                        s: SolicitudCotizacion, now: int): (r: Result<Cotizacion, ErrorCreacion>)
    ensures ConstruirCotizacion(productos, catalogo, s, now).Err? ==> r == ConstruirCotizacion(productos, catalogo, s, now)
    ensures r.Ok? <==> ConstruirCotizacion(productos, catalogo, s, now).Ok?
    ensures r.Ok? ==>
      var q := ConstruirCotizacion(productos, catalogo, s, now).value;
      r.value == q.(productos := r.value.productos) &&
      |r.value.productos| == |s.productos.value| &&
      forall i :: 0 <= i < |r.value.productos| ==>
        r.value.productos[i] == LineaCorregida(q.productos[i], s.productos.value[i])
  {
    match ConstruirCotizacion(productos, catalogo, s, now)
    case Err(e) => Err(e)
    case Ok(q) => Ok(q.(productos := LineasCorregidas(q.productos, s.productos.value)))
  }

  /** The figures an item needs for its stored line to satisfy the schema. */
  predicate CifrasCompletas(item: ItemSolicitud) {
    item.precioBase.Some? && item.precio.Some? && item.precioFinal.Some? && OrNum(item.cantidad, 1) >= 1
  }

  /** Corrected, a quotation built against a valid catalog from items with
      complete figures satisfies its schema. */
  lemma CotizacionCorregidaCumpleEsquema(productos: map<Id, LegacyCatalog.Producto>, catalogo: map<Id, Extra>,
                                         s: SolicitudCotizacion, now: int)
    requires forall id :: id in productos ==> LegacyCatalog.ValidProducto(productos[id])
    requires forall id :: id in catalogo ==> catalogo[id].nombre != ""
    requires s.productos.Some? && forall i :: 0 <= i < |s.productos.value| ==> CifrasCompletas(s.productos.value[i])
    requires ConstruirCotizacionCorregida(productos, catalogo, s, now).Ok?
    ensures ValidCotizacion(ConstruirCotizacionCorregida(productos, catalogo, s, now).value)
  {
    var q := ConstruirCotizacion(productos, catalogo, s, now).value;
    var r := ConstruirCotizacionCorregida(productos, catalogo, s, now).value;
    forall l | l in r.productos
      ensures ValidLinea(l)
    {
      var i :| 0 <= i < |r.productos| && r.productos[i] == l;
      var item := s.productos.value[i];
      assert ResolverItem(productos, catalogo, item) == Ok(q.productos[i]);
      var ids := ExtrasPedidos(item);
      var es := ResolverExtras(catalogo, ids).value;
      forall e | e in l.extras
        ensures ValidExtra(e)
      {
        var j :| 0 <= j < |l.extras| && l.extras[j] == e;
        assert e == ConExtraRef(es[j]) && es[j] == ExtraDe(ids[j], catalogo[ids[j]]);
      }
    }
  }

  // ---------------------------------------------------------------------
  // Conversion into a sale

  /** The copy of a quotation item into a sale item: every field the
      conversion lists, without `precioBase`, and not temporary. */
  function CopiaLinea(l: LineaItem): (r: LineaItem)
    ensures r.productoRef == l.productoRef && r.producto == l.producto && r.variante == l.variante
    ensures r.color == l.color && r.talla == l.talla && r.extras == l.extras && r.cantidad == l.cantidad
    ensures r.descuento == l.descuento && r.precio == l.precio && r.precioFinal == l.precioFinal
    ensures r.precioBase.None? && !r.esTemporal
  {
    LineaItem(false, l.productoRef, l.producto, l.variante, l.color, l.talla, l.extras,
              l.cantidad, l.descuento, None, l.precio, l.precioFinal)
  }

  /** The sale a conversion creates: the quotation's amounts, its items
      copied in order, everything still owed, linked back to `qid`. */
  function VentaDesde(q: Cotizacion, qid: Id, now: int): (v: Venta)
    ensures v.cliente == q.cliente && v.subTotal == q.subTotal && v.total == q.total
    ensures v.restante == q.total && v.origenCotizacion == Some(qid)
    ensures v.ventaEnLinea == q.ventaEnLinea && v.descuentoGlobal == q.descuentoGlobal
    ensures |v.productos| == |q.productos| &&
      forall i :: 0 <= i < |q.productos| ==> v.productos[i] == CopiaLinea(q.productos[i])
    ensures v.estado == Pendiente && v.pagos == [] && v.vendedor.None?
  {
    VentaConDefectos(q.cliente, q.subTotal, q.total, MapSeq(q.productos, CopiaLinea), None, now)
      .(restante := q.total, ventaEnLinea := q.ventaEnLinea, descuentoGlobal := q.descuentoGlobal,
        origenCotizacion := Some(qid))
  }

  /** The sale built by a conversion never satisfies the sale schema: it
      has no seller, and each copied item lacks `precioBase`. */
  lemma VentaConvertidaIncumpleEsquema(q: Cotizacion, qid: Id, now: int)
    ensures !ValidVenta(VentaDesde(q, qid, now))
    ensures forall l :: l in VentaDesde(q, qid, now).productos ==> !ValidLinea(l)
  {
  }

  /** A quotation item copied into a sale as evidently intended: the base
      price comes along with the listed fields. */
  function CopiaLineaCorregida(l: LineaItem): (r: LineaItem)
    ensures r.precioBase == l.precioBase
    ensures r.(precioBase := None) == CopiaLinea(l)
  {
    CopiaLinea(l).(precioBase := l.precioBase)
  }

  /** The sale a conversion creates as evidently intended: as written, but
      with the base prices copied and the authenticated user as seller. */
  function VentaDesdeCorregida(q: Cotizacion, qid: Id, vendedor: Id, now: int): (v: Venta)
    ensures v.vendedor == Some(vendedor)
    ensures |v.productos| == |q.productos| &&
      forall i :: 0 <= i < |q.productos| ==> v.productos[i] == CopiaLineaCorregida(q.productos[i])
    ensures v.(productos := VentaDesde(q, qid, now).productos, vendedor := None) == VentaDesde(q, qid, now)
  {
    VentaDesde(q, qid, now).(productos := MapSeq(q.productos, CopiaLineaCorregida), vendedor := Some(vendedor))
  }

  /** Corrected, the sale from a valid quotation with non-negative totals
      whose items reference products satisfies the sale schema. */
  lemma VentaCorregidaCumpleEsquema(q: Cotizacion, qid: Id, vendedor: Id, now: int)
    requires ValidCotizacion(q) && q.subTotal >= 0 && q.total >= 0
    requires forall l :: l in q.productos ==> l.productoRef.Some?
    ensures ValidVenta(VentaDesdeCorregida(q, qid, vendedor, now))
  {
    var v := VentaDesdeCorregida(q, qid, vendedor, now);
    forall l | l in v.productos
      ensures ValidLinea(l)
    {
      var i :| 0 <= i < |v.productos| && v.productos[i] == l;
      assert q.productos[i] in q.productos;
    }
  }

  /** What strict mode keeps of a quotation document: the schema does not
      declare `convertidaAVenta`, so a back-reference set on it is lost. */
  function GuardadaTalCual(q: Cotizacion): (r: Cotizacion)
    ensures r.convertidaAVenta.None?
    ensures r.(convertidaAVenta := q.convertidaAVenta) == q
  {
    q.(convertidaAVenta := None)
  }

  /** As written, a quotation whose back-reference was saved under strict
      mode can be converted again. */
  lemma ReconvertibleTalCual(q: Cotizacion, vid: Id, now: int)
    requires Convertible(q, now)
    ensures Convertible(GuardadaTalCual(q.(convertidaAVenta := Some(vid))), now)
  {
  }

  /** A quotation may be converted when it was not converted before and
      has not expired; expiring exactly now still allows it. */
  predicate Convertible(q: Cotizacion, now: int) {
    q.convertidaAVenta.None? && !(q.expira < now)
  }

  datatype ResultadoConversion =
    | Convertida(venta: Id)
    | NoEncontrada          // 404
    | YaConvertida(venta: Id)  // 400, with the existing sale id
    | Expirada              // 400
    | VentaRechazada        // 500: the sale schema refuses the new sale

  /** Every sale from a quotation is the one that quotation points to, and
      every back-reference points to a sale from that quotation. */
  predicate Enlazado(cotizaciones: map<Id, Cotizacion>, ventas: map<Id, Venta>) {
    (forall vid :: vid in ventas && ventas[vid].origenCotizacion.Some? ==>
      ventas[vid].origenCotizacion.value in cotizaciones &&
      cotizaciones[ventas[vid].origenCotizacion.value].convertidaAVenta == Some(vid)) &&
    (forall qid :: qid in cotizaciones && cotizaciones[qid].convertidaAVenta.Some? ==>
      cotizaciones[qid].convertidaAVenta.value in ventas &&
      ventas[cotizaciones[qid].convertidaAVenta.value].origenCotizacion == Some(qid))
  }

  /** At most one sale comes from any quotation. */
  lemma UnaVentaPorCotizacion(cotizaciones: map<Id, Cotizacion>, ventas: map<Id, Venta>, a: Id, b: Id)
    requires Enlazado(cotizaciones, ventas)
    requires a in ventas && b in ventas
    requires ventas[a].origenCotizacion.Some? && ventas[a].origenCotizacion == ventas[b].origenCotizacion
    ensures a == b
  {
    var qid := ventas[a].origenCotizacion.value;
    assert cotizaciones[qid].convertidaAVenta == Some(a);
    assert cotizaciones[qid].convertidaAVenta == Some(b);
  }

  /** What strict mode keeps of a sale document: the sale schema does not
      declare `origenCotizacion`, so the link to its quotation is lost. */
  function VentaGuardadaTalCual(v: Venta): (r: Venta)
    ensures r.origenCotizacion.None?
    ensures r.(origenCotizacion := v.origenCotizacion) == v
  {
    v.(origenCotizacion := None)
  }

  /** As written, even with the back-reference kept, a converted sale saved
      under strict mode breaks the link: the quotation points to a sale
      that does not point back. */
  lemma EnlaceRotoTalCual(cotizaciones: map<Id, Cotizacion>, ventas: map<Id, Venta>, qid: Id, vid: Id, v: Venta)
    requires qid in cotizaciones
    ensures !Enlazado(cotizaciones[qid := cotizaciones[qid].(convertidaAVenta := Some(vid))],
                      ventas[vid := VentaGuardadaTalCual(v)])
  {
    var cs := cotizaciones[qid := cotizaciones[qid].(convertidaAVenta := Some(vid))];
    var vs := ventas[vid := VentaGuardadaTalCual(v)];
    assert qid in cs && cs[qid].convertidaAVenta == Some(vid);
    assert vs[vid].origenCotizacion.None?;
  }

  // ---------------------------------------------------------------------
  // Derived status

  datatype Estado = Estado(expirada: bool, diasRestantes: int, puedeConvertir: bool)

  /** Status fields shown with a quotation at time `now`. */
  function EstadoEn(q: Cotizacion, now: int): (r: Estado)
    ensures r.expirada <==> q.expira < now
    ensures r.expirada ==> r.diasRestantes == 0
    ensures !r.expirada ==>
      r.diasRestantes >= 0 &&
      r.diasRestantes * DIA_MS >= q.expira - now &&
      (r.diasRestantes == 0 || (r.diasRestantes - 1) * DIA_MS < q.expira - now)
    ensures r.puedeConvertir <==> !r.expirada && q.convertidaAVenta.None?
  {
    var expirada := q.expira < now;
    Estado(expirada, if expirada then 0 else CeilDiv(q.expira - now, DIA_MS), !expirada && q.convertidaAVenta.None?)
  }

  /** The status field agrees with what conversion accepts. */
  lemma PuedeConvertirSiiConvertible(q: Cotizacion, now: int)
    ensures EstadoEn(q, now).puedeConvertir <==> Convertible(q, now)
  {
  }

  /** A fresh quotation has fifteen days left. */
  lemma QuinceDiasAlCrear(q: Cotizacion, now: int)
    requires q.expira == now + 15 * DIA_MS
    ensures EstadoEn(q, now).diasRestantes == 15
  {
    assert EstadoEn(q, now).diasRestantes * DIA_MS >= 15 * DIA_MS;
    assert (EstadoEn(q, now).diasRestantes - 1) * DIA_MS < 15 * DIA_MS;
  }

  // ---------------------------------------------------------------------
  // Listing filters

  datatype CondConversion = CualquierConversion | SinConvertir | YaConvertidas
  datatype CondExpira = CualquierExpira | ExpiraAntesDe(t: int) | ExpiraDesde(t: int) | ExpiraDespuesDe(t: int)

  /** The database filter the listings build. */
  datatype Filtro = Filtro(cliente: Option<Id>, desde: Option<int>, hasta: Option<int>,
                           conversion: CondConversion, expira: CondExpira)

  /** Query-string parameters of the filtered listing. */
  datatype Consulta = Consulta(cliente: Option<Id>, fechaInicio: Option<int>, fechaFin: Option<int>,
                               expiradas: Option<string>, convertidas: Option<string>)

  /** What it means for a quotation to match a filter. */
  predicate Satisface(f: Filtro, q: Cotizacion) {
    (f.cliente.Some? ==> q.cliente == f.cliente.value) &&
    (f.desde.Some? ==> q.fechaCreacion >= f.desde.value) &&
    (f.hasta.Some? ==> q.fechaCreacion <= f.hasta.value) &&
    (match f.conversion
     case CualquierConversion => true
     case SinConvertir => q.convertidaAVenta.None?
     case YaConvertidas => q.convertidaAVenta.Some?) &&
    (match f.expira
     case CualquierExpira => true
     case ExpiraAntesDe(t) => q.expira < t
     case ExpiraDesde(t) => q.expira >= t
     case ExpiraDespuesDe(t) => q.expira > t)
  }

  /** The filter of the active listing. */
  function FiltroActivas(now: int): Filtro {
    Filtro(None, None, None, SinConvertir, ExpiraDespuesDe(now))
  }

  /** The filter the filtered listing builds from its query. */
  function FiltroDesdeConsulta(c: Consulta, now: int): Filtro {
    Filtro(
      c.cliente, c.fechaInicio, c.fechaFin,
      if c.convertidas == Some("true") then YaConvertidas
      else if c.convertidas == Some("false") then SinConvertir
      else CualquierConversion,
      if c.expiradas == Some("true") then ExpiraAntesDe(now)
      else if c.expiradas == Some("false") then ExpiraDesde(now)
      else CualquierExpira)
  }

  /** Active means unconverted and expiring strictly later than now. */
  lemma ActivaSii(q: Cotizacion, now: int)
    ensures Satisface(FiltroActivas(now), q) <==> q.convertidaAVenta.None? && q.expira > now
  {
  }

  /** Active quotations are convertible; the only convertible ones that the
      active listing omits are those expiring exactly now. */
  lemma ActivasYConvertibles(q: Cotizacion, now: int)
    ensures Satisface(FiltroActivas(now), q) ==> Convertible(q, now)
    ensures Convertible(q, now) && !Satisface(FiltroActivas(now), q) <==>
      q.convertidaAVenta.None? && q.expira == now
  {
  }

  /** The filtered listing matches a quotation exactly when each given
      criterion holds; `expiradas` and `convertidas` other than "true" or
      "false" impose nothing. */
  lemma ConsultaSatisfecha(c: Consulta, now: int, q: Cotizacion)
    ensures Satisface(FiltroDesdeConsulta(c, now), q) <==>
      (c.cliente.Some? ==> q.cliente == c.cliente.value) &&
      (c.fechaInicio.Some? ==> q.fechaCreacion >= c.fechaInicio.value) &&
      (c.fechaFin.Some? ==> q.fechaCreacion <= c.fechaFin.value) &&
      (c.convertidas == Some("true") ==> q.convertidaAVenta.Some?) &&
      (c.convertidas == Some("false") ==> q.convertidaAVenta.None?) &&
      (c.expiradas == Some("true") ==> q.expira < now) &&
      (c.expiradas == Some("false") ==> q.expira >= now)
  {
  }

  /** `expiradas=true` and `expiradas=false` split the quotations in two,
      in agreement with the derived `expirada` flag. */
  lemma ExpiradasParticion(c: Consulta, now: int, q: Cotizacion)
    requires c.cliente.None? && c.fechaInicio.None? && c.fechaFin.None? && c.convertidas.None?
    ensures Satisface(FiltroDesdeConsulta(c.(expiradas := Some("true")), now), q) <==> EstadoEn(q, now).expirada
    ensures Satisface(FiltroDesdeConsulta(c.(expiradas := Some("false")), now), q) <==> !EstadoEn(q, now).expirada
  {
  }

  // ---------------------------------------------------------------------
  // The store

  /** The collections the quotation lifecycle reads and writes. */
  class Registro {
    var productos: map<Id, LegacyCatalog.Producto>
    var extras: map<Id, Extra>
    var cotizaciones: map<Id, Cotizacion>
    var ventas: map<Id, Venta>

    /** The links between sales and quotations hold, and every stored
        document satisfies its schema. */
    ghost predicate Valid()
      reads this
    {
      Enlazado(cotizaciones, ventas) &&
      (forall qid :: qid in cotizaciones ==> ValidCotizacion(cotizaciones[qid])) &&
      (forall vid :: vid in ventas ==> ValidVenta(ventas[vid]))
    }

    constructor (productos: map<Id, LegacyCatalog.Producto>, extras: map<Id, Extra>)
      ensures Valid()
      ensures this.productos == productos && this.extras == extras
      ensures cotizaciones == map[] && ventas == map[]
    {
      this.productos := productos;
      this.extras := extras;
      cotizaciones := map[];
      ventas := map[];
    }

    /** Creates a quotation under `nuevoId` (corrected creation); a failed
        check or lookup, or a document the schema refuses, saves nothing. */
    method CrearCotizacion(s: SolicitudCotizacion, now: int, nuevoId: Id) returns (r: Result<Id, ErrorCreacion>)
      requires Valid() && nuevoId !in cotizaciones
      modifies this
      ensures Valid()
      ensures productos == old(productos) && extras == old(extras) && ventas == old(ventas)
      ensures var c := ConstruirCotizacionCorregida(productos, extras, s, now);
        (c.Err? ==> r == Err(c.error) && cotizaciones == old(cotizaciones)) &&
        (c.Ok? && !ValidCotizacion(c.value) ==> r == Err(Rechazada) && cotizaciones == old(cotizaciones)) &&
        (c.Ok? && ValidCotizacion(c.value) ==> r == Ok(nuevoId) && cotizaciones == old(cotizaciones)[nuevoId := c.value])
    {
      var c := ConstruirCotizacionCorregida(productos, extras, s, now);
      if c.Err? {
        return Err(c.error);
      }
      if !ValidCotizacion(c.value) {
        return Err(Rechazada);
      }
      cotizaciones := cotizaciones[nuevoId := c.value];
      r := Ok(nuevoId);
    }

    /** Converts quotation `qid` into a new sale `nuevaVenta` sold by
        `usuario` (corrected conversion): 404 when unknown, 400 when
        already converted or expired, 500 when the sale schema refuses the
        sale; otherwise stores the sale and the back-reference, so a second
        attempt fails. */
    method ConvertirAVenta(qid: Id, now: int, nuevaVenta: Id, usuario: Id) returns (r: ResultadoConversion)
      requires Valid() && nuevaVenta !in ventas
      modifies this
      ensures Valid()
      ensures productos == old(productos) && extras == old(extras)
      ensures qid !in old(cotizaciones) ==>
        r == NoEncontrada && cotizaciones == old(cotizaciones) && ventas == old(ventas)
      ensures qid in old(cotizaciones) && old(cotizaciones)[qid].convertidaAVenta.Some? ==>
        r == YaConvertida(old(cotizaciones)[qid].convertidaAVenta.value) &&
        cotizaciones == old(cotizaciones) && ventas == old(ventas)
      ensures qid in old(cotizaciones) && old(cotizaciones)[qid].convertidaAVenta.None? && old(cotizaciones)[qid].expira < now ==>
        r == Expirada && cotizaciones == old(cotizaciones) && ventas == old(ventas)
      ensures qid in old(cotizaciones) && Convertible(old(cotizaciones)[qid], now) ==>
        var v := VentaDesdeCorregida(old(cotizaciones)[qid], qid, usuario, now);
        (!ValidVenta(v) ==> r == VentaRechazada && cotizaciones == old(cotizaciones) && ventas == old(ventas)) &&
        (ValidVenta(v) ==>
          r == Convertida(nuevaVenta) && ventas == old(ventas)[nuevaVenta := v] &&
          cotizaciones == old(cotizaciones)[qid := old(cotizaciones)[qid].(convertidaAVenta := Some(nuevaVenta))])
      ensures r.Convertida? ==> qid in cotizaciones && !Convertible(cotizaciones[qid], now)
    {
      if qid !in cotizaciones {
        return NoEncontrada;
      }
      var q := cotizaciones[qid];
      if q.convertidaAVenta.Some? {
        return YaConvertida(q.convertidaAVenta.value);
      }
      if q.expira < now {
        return Expirada;
      }
      var v := VentaDesdeCorregida(q, qid, usuario, now);
      if !ValidVenta(v) {
        return VentaRechazada;
      }
      ventas := ventas[nuevaVenta := v];
      cotizaciones := cotizaciones[qid := q.(convertidaAVenta := Some(nuevaVenta))];
      r := Convertida(nuevaVenta);
    }
  }
}
