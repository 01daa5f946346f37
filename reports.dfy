/** Report aggregations: inventory-ledger totals and motive counts, the
    sales summary, receipt summaries, the displayed price fallbacks, and
    the variant label of a line item. */
module Reports {
  import opened Common
  import opened InventoryModel
  import opened SaleModel
  import opened QuotationModel
  import Quotations

  // ---------------------------------------------------------------------
  // Inventory ledger

  /** Sum of `cantidad` over the movements of direction `t`. */
  function TotalTipo(ms: seq<Movimiento>, t: TipoMovimiento): int {
    if |ms| == 0 then 0
    else (if ms[0].tipo == t then ms[0].cantidad else 0) + TotalTipo(ms[1..], t)
  }

  function TotalEntradas(ms: seq<Movimiento>): int { TotalTipo(ms, Entrada) }
  function TotalSalidas(ms: seq<Movimiento>): int { TotalTipo(ms, Salida) }

  /** Stock balance of a period: what came in minus what went out. */
  function Saldo(ms: seq<Movimiento>): int { TotalEntradas(ms) - TotalSalidas(ms) }

  function SumaCantidades(ms: seq<Movimiento>): int {
    if |ms| == 0 then 0 else ms[0].cantidad + SumaCantidades(ms[1..])
  }

  /** Every movement is counted in exactly one of the two totals. */
  lemma {:induction false} EntradasMasSalidas(ms: seq<Movimiento>)
    ensures TotalEntradas(ms) + TotalSalidas(ms) == SumaCantidades(ms)
  {
    if |ms| > 0 {
      EntradasMasSalidas(ms[1..]);
    }
  }

  lemma {:induction false} TotalTipoConcat(a: seq<Movimiento>, b: seq<Movimiento>, t: TipoMovimiento)
    ensures TotalTipo(a + b, t) == TotalTipo(a, t) + TotalTipo(b, t)
  {
    if |a| > 0 {
      assert (a + b)[1..] == a[1..] + b;
      TotalTipoConcat(a[1..], b, t);
    } else {
      assert a + b == b;
    }
  }

  /** The balance of two consecutive periods is the sum of their balances. */
  lemma SaldoConcat(a: seq<Movimiento>, b: seq<Movimiento>)
    ensures Saldo(a + b) == Saldo(a) + Saldo(b)
  {
    TotalTipoConcat(a, b, Entrada);
    TotalTipoConcat(a, b, Salida);
  }

  /** Number of movements of direction `t`. */
  function CuentaTipo(ms: seq<Movimiento>, t: TipoMovimiento): nat {
    if |ms| == 0 then 0 else (if ms[0].tipo == t then 1 else 0) + CuentaTipo(ms[1..], t)
  }

  /** With valid entries, each direction's total is at least its count. */
  lemma {:induction false} TotalAlMenosCuenta(ms: seq<Movimiento>, t: TipoMovimiento)
    requires forall m :: m in ms ==> ValidMovimiento(m)
    ensures TotalTipo(ms, t) >= CuentaTipo(ms, t)
  {
    if |ms| > 0 {
      assert ms[0] in ms;
      TotalAlMenosCuenta(ms[1..], t);
    }
  }

  /** Number of movements with motive `mot`. */
  function Conteo(ms: seq<Movimiento>, mot: Motivo): nat {
    if |ms| == 0 then 0 else (if ms[0].motivo == mot then 1 else 0) + Conteo(ms[1..], mot)
  }

  /** The five motive counts partition the movements. */
  lemma {:induction false} ConteosParticionan(ms: seq<Movimiento>)
    ensures Conteo(ms, Compra) + Conteo(ms, Motivo.Venta) + Conteo(ms, Ajuste) +
            Conteo(ms, Devolucion) + Conteo(ms, Perdida) == |ms|
  {
    if |ms| > 0 {
      ConteosParticionan(ms[1..]);
    }
  }

  datatype FilaMotivo = FilaMotivo(motivo: Motivo, cantidad: nat)

  predicate FilaNoVacia(f: FilaMotivo) { f.cantidad > 0 }

  function Fila(ms: seq<Movimiento>, mot: Motivo): FilaMotivo {
    FilaMotivo(mot, Conteo(ms, mot))
  }

  /** One row per motive of the enum, in enum order. */
  function Filas(ms: seq<Movimiento>): seq<FilaMotivo> {
    [Fila(ms, Compra), Fila(ms, Motivo.Venta), Fila(ms, Ajuste), Fila(ms, Devolucion), Fila(ms, Perdida)]
  }

  lemma FilasCompletas(ms: seq<Movimiento>)
    ensures forall mot :: Fila(ms, mot) in Filas(ms)
  {
    forall mot ensures Fila(ms, mot) in Filas(ms) {
      match mot
      case Compra => assert Filas(ms)[0] == Fila(ms, mot);
      case Venta => assert Filas(ms)[1] == Fila(ms, mot);
      case Ajuste => assert Filas(ms)[2] == Fila(ms, mot);
      case Devolucion => assert Filas(ms)[3] == Fila(ms, mot);
      case Perdida => assert Filas(ms)[4] == Fila(ms, mot);
    }
  }

  /** The motive breakdown: one row per motive of the enum, in enum order,
      leaving out motives that do not occur. */
  function Desglose(ms: seq<Movimiento>): (r: seq<FilaMotivo>)
    ensures forall f :: f in r ==> f.cantidad > 0 && f.cantidad == Conteo(ms, f.motivo)
    ensures forall mot :: Conteo(ms, mot) > 0 <==> Fila(ms, mot) in r
  {
    var filas := Filas(ms);
    FilasCompletas(ms);
    Keep(filas, FilaNoVacia)
  }

  function SumaFilas(fs: seq<FilaMotivo>): nat {
    if |fs| == 0 then 0 else fs[0].cantidad + SumaFilas(fs[1..])
  }

  lemma {:induction false} SumaFilasSinVacias(fs: seq<FilaMotivo>)
    ensures SumaFilas(Keep(fs, FilaNoVacia)) == SumaFilas(fs)
  {
    if |fs| > 0 {
      SumaFilasSinVacias(fs[1..]);
      if FilaNoVacia(fs[0]) {
        assert ([fs[0]] + Keep(fs[1..], FilaNoVacia))[1..] == Keep(fs[1..], FilaNoVacia);
      }
    }
  }

  /** The breakdown's rows add up to the number of movements. */
  lemma DesgloseSumaTotal(ms: seq<Movimiento>)
    ensures SumaFilas(Desglose(ms)) == |ms|
  {
    var filas := Filas(ms);
    SumaFilasSinVacias(filas);
    var f := filas;
    assert SumaFilas(f[4..]) == f[4].cantidad by { assert f[4..][1..] == []; }
    assert SumaFilas(f[3..]) == f[3].cantidad + SumaFilas(f[4..]) by { assert f[3..][1..] == f[4..]; }
    assert SumaFilas(f[2..]) == f[2].cantidad + SumaFilas(f[3..]) by { assert f[2..][1..] == f[3..]; }
    assert SumaFilas(f[1..]) == f[1].cantidad + SumaFilas(f[2..]) by { assert f[1..][1..] == f[2..]; }
    ConteosParticionan(ms);
  }

  // ---------------------------------------------------------------------
  // Movement query

  /** The optional filters of an inventory report request. */
  datatype FiltrosMovimientos = FiltrosMovimientos(tipoMovimiento: Option<string>, motivo: Option<seq<string>>)

  /** The database query: a date range, an optional direction and an
      optional set of motives. */
  datatype ConsultaMovimientos = ConsultaMovimientos(desde: int, hasta: int, tipo: Option<string>, motivos: Option<seq<string>>)

  function ConstruirConsulta(f: FiltrosMovimientos, desde: int, hasta: int): ConsultaMovimientos {
    ConsultaMovimientos(
      desde, hasta,
      if Truthy(f.tipoMovimiento) then f.tipoMovimiento else None,
      if f.motivo.Some? && |f.motivo.value| > 0 then f.motivo else None)
  }

  predicate Cumple(c: ConsultaMovimientos, m: Movimiento) {
    c.desde <= m.fecha <= c.hasta &&
    (c.tipo.Some? ==> NombreTipo(m.tipo) == c.tipo.value) &&
    (c.motivos.Some? ==> NombreMotivo(m.motivo) in c.motivos.value)
  }

  /** A movement is reported exactly when it is in the period, has the
      requested direction if one is given, and one of the requested motives
      if the list is not empty. */
  lemma ConsultaCumplida(f: FiltrosMovimientos, desde: int, hasta: int, m: Movimiento)
    ensures Cumple(ConstruirConsulta(f, desde, hasta), m) <==>
      desde <= m.fecha <= hasta &&
      (Truthy(f.tipoMovimiento) ==> NombreTipo(m.tipo) == f.tipoMovimiento.value) &&
      (f.motivo.Some? && |f.motivo.value| > 0 ==> NombreMotivo(m.motivo) in f.motivo.value)
  {
  }

  /** An empty motive list filters nothing, unlike a list naming motives. */
  lemma ListaVaciaNoFiltra(tipo: Option<string>, desde: int, hasta: int, m: Movimiento)
    requires desde <= m.fecha <= hasta && !Truthy(tipo)
    ensures Cumple(ConstruirConsulta(FiltrosMovimientos(tipo, Some([])), desde, hasta), m)
    ensures Cumple(ConstruirConsulta(FiltrosMovimientos(tipo, None), desde, hasta), m)
  {
  }

  // ---------------------------------------------------------------------
  // Sales report

  datatype ResumenVentas = ResumenVentas(totalVentas: int, cantidadVentas: nat)

  /** A sale is reported when created in the period and not returned. */
  predicate Reportada(v: Venta, desde: int, hasta: int) {
    desde <= v.fechaCreacion <= hasta && v.estado != Devuelto
  }

  /** Sum of totals and number of the reported sales. */
  function ResumenDeVentas(vs: seq<Venta>, desde: int, hasta: int): ResumenVentas {
    if |vs| == 0 then ResumenVentas(0, 0)
    else
      var r := ResumenDeVentas(vs[1..], desde, hasta);
      if Reportada(vs[0], desde, hasta)
      then ResumenVentas(r.totalVentas + OrNum(Some(vs[0].total), 0), r.cantidadVentas + 1)
      else r
  }

  /** Adding a sale changes the summary by that sale's total and one
      count when it is reported, and not at all otherwise. */
  lemma {:induction false} ResumenAlAgregar(vs: seq<Venta>, v: Venta, desde: int, hasta: int)
    ensures var antes := ResumenDeVentas(vs, desde, hasta);
      ResumenDeVentas(vs + [v], desde, hasta) ==
        if Reportada(v, desde, hasta)
        then ResumenVentas(antes.totalVentas + v.total, antes.cantidadVentas + 1)
        else antes
  {
    if |vs| == 0 {
      assert [v][1..] == [];
    } else {
      assert (vs + [v])[1..] == vs[1..] + [v];
      ResumenAlAgregar(vs[1..], v, desde, hasta);
    }
  }

  /** Returned sales never count, whatever their total. */
  lemma DevueltaNoCuenta(vs: seq<Venta>, v: Venta, desde: int, hasta: int)
    requires v.estado == Devuelto
    ensures ResumenDeVentas(vs + [v], desde, hasta) == ResumenDeVentas(vs, desde, hasta)
  {
    ResumenAlAgregar(vs, v, desde, hasta);
  }

  /** Summing valid sales gives a non-negative total, and the count never
      exceeds the number of sales. */
  lemma {:induction false} ResumenAcotado(vs: seq<Venta>, desde: int, hasta: int)
    requires forall v :: v in vs ==> ValidVenta(v)
    ensures ResumenDeVentas(vs, desde, hasta).totalVentas >= 0
    ensures ResumenDeVentas(vs, desde, hasta).cantidadVentas <= |vs|
  {
    if |vs| > 0 {
      assert vs[0] in vs;
      ResumenAcotado(vs[1..], desde, hasta);
    }
  }

  // ---------------------------------------------------------------------
  // Receipts

  /** Sum of the items' `cantidad`, a missing count adding nothing. */
  function TotalItems(ls: seq<LineaItem>): int {
    if |ls| == 0 then 0 else OrNum(Some(ls[0].cantidad), 0) + TotalItems(ls[1..])
  }

  /** Items that satisfy the schema carry at least one unit each. */
  lemma {:induction false} TotalItemsAlMenosLineas(ls: seq<LineaItem>)
    requires LineasValidas(ls)
    ensures TotalItems(ls) >= |ls|
  {
    if |ls| > 0 {
      assert ls[0] in ls;
      TotalItemsAlMenosLineas(ls[1..]);
    }
  }

  datatype ErrorRecibo = NoEncontrado | SinProductos   // 404, 400

  datatype Resumen = Resumen(subTotal: int, total: int, totalProductos: nat, totalItems: int)

  /** The summary block of a receipt, refused for a document without items. */
  function ResumenDe(productos: seq<LineaItem>, subTotal: int, total: int): (r: Result<Resumen, ErrorRecibo>)
    ensures r.Err? <==> |productos| == 0
    ensures r.Err? ==> r.error == SinProductos
    ensures r.Ok? ==> r.value.totalProductos == |productos| && r.value.totalItems == TotalItems(productos)
  {
    if |productos| == 0 then Err(SinProductos)
    else Ok(Resumen(OrNum(Some(subTotal), 0), OrNum(Some(total), 0), |productos|, TotalItems(productos)))
  }

  function ReciboCotizacion(cotizaciones: map<Id, Cotizacion>, id: Id): (r: Result<Resumen, ErrorRecibo>)
    ensures r == Err(NoEncontrado) <==> id !in cotizaciones
    ensures r == Err(SinProductos) <==> id in cotizaciones && |cotizaciones[id].productos| == 0
  {
    if id !in cotizaciones then Err(NoEncontrado)
    else var q := cotizaciones[id]; ResumenDe(q.productos, q.subTotal, q.total)
  }

  datatype ReciboDeVenta = ReciboDeVenta(resumen: Resumen, restante: int, estado: Estado, mostrarRestante: bool)

  function ReciboVenta(ventas: map<Id, Venta>, id: Id): (r: Result<ReciboDeVenta, ErrorRecibo>)
    ensures r == Err(NoEncontrado) <==> id !in ventas
    ensures r == Err(SinProductos) <==> id in ventas && |ventas[id].productos| == 0
    ensures r.Ok? ==> (r.value.mostrarRestante <==> ventas[id].restante > 0)
  {
    if id !in ventas then Err(NoEncontrado)
    else
      var v := ventas[id];
      match ResumenDe(v.productos, v.subTotal, v.total)
      case Err(e) => Err(e)
      case Ok(res) =>
        var restante := OrNum(Some(v.restante), 0);
        Ok(ReciboDeVenta(res, restante, v.estado, restante > 0))
  }

  lemma {:induction false} TotalItemsCopia(ls: seq<LineaItem>)
    ensures TotalItems(MapSeq(ls, Quotations.CopiaLineaCorregida)) == TotalItems(ls)
  {
    if |ls| > 0 {
      assert MapSeq(ls, Quotations.CopiaLineaCorregida)[1..] == MapSeq(ls[1..], Quotations.CopiaLineaCorregida);
      TotalItemsCopia(ls[1..]);
    }
  }

  /** The receipt of a sale converted from a quotation repeats the
      quotation receipt's item counts, and shows the whole total as owed. */
  lemma ReciboDeConvertida(q: Cotizacion, qid: Id, vendedor: Id, now: int, vid: Id)
    requires |q.productos| > 0 && q.total > 0
    ensures var v := Quotations.VentaDesdeCorregida(q, qid, vendedor, now);
      var rv := ReciboVenta(map[vid := v], vid);
      var rq := ReciboCotizacion(map[qid := q], qid);
      rv.Ok? && rq.Ok? &&
      rv.value.resumen.totalItems == rq.value.totalItems &&
      rv.value.resumen.totalProductos == rq.value.totalProductos &&
      rv.value.restante == q.total && rv.value.mostrarRestante
  {
    var v := Quotations.VentaDesdeCorregida(q, qid, vendedor, now);
    assert v.productos == MapSeq(q.productos, Quotations.CopiaLineaCorregida);
    TotalItemsCopia(q.productos);
  }

  // ---------------------------------------------------------------------
  // Displayed prices and labels

  datatype PreciosLinea = PreciosLinea(cantidad: int, precioBase: int, precioUnitario: int, precioFinal: int)

  /** The prices a receipt shows for an item: the base price or 0; the
      unit price or else the base price; the final price or else unit
      price times quantity, a falsy quantity counting as one. */
  function PreciosMostrados(l: LineaItem): (r: PreciosLinea)
    ensures TruthyNum(l.precioBase) ==> r.precioBase == l.precioBase.value
    ensures !TruthyNum(l.precioBase) ==> r.precioBase == 0
    ensures TruthyNum(l.precio) ==> r.precioUnitario == l.precio.value
    ensures !TruthyNum(l.precio) ==> r.precioUnitario == r.precioBase
    ensures TruthyNum(l.precioFinal) ==> r.precioFinal == l.precioFinal.value
    ensures !TruthyNum(l.precioFinal) ==> r.precioFinal == r.precioUnitario * r.cantidad
    ensures r.cantidad == (if l.cantidad != 0 then l.cantidad else 1)
  {
    var base := OrNum(l.precioBase, 0);
    var unitario := OrNum(l.precio, base);
    var cantidad := OrNum(Some(l.cantidad), 1);
    PreciosLinea(cantidad, base, unitario, OrNum(l.precioFinal, unitario * cantidad))
  }

  /** An item copied into a sale by a conversion shows on the sale
      receipt the prices it showed on the quotation receipt. */
  lemma PreciosTrasConversion(l: LineaItem)
    ensures PreciosMostrados(Quotations.CopiaLineaCorregida(l)) == PreciosMostrados(l)
  {
  }

  /** The truthy strings among `parts`, in order (`filter(Boolean)`). */
  function Presentes(parts: seq<Option<string>>): (r: seq<string>)
    ensures forall s :: s in r ==> s != ""
    ensures forall x :: x in parts && Truthy(x) ==> x.value in r
    ensures forall s :: s in r ==> Some(s) in parts
    ensures |r| <= |parts|
  {
    if |parts| == 0 then []
    else if Truthy(parts[0]) then [parts[0].value] + Presentes(parts[1..])
    else Presentes(parts[1..])
  }

  /** The parts of a variant label: type, quality, colour and size names.
      Line items carry no quality, so that part is always absent. */
  function PartesEtiqueta(l: LineaItem): seq<Option<string>> {
    var talla := if l.talla.Some? then l.talla.value.nombre else None;
    [l.variante.tipo, None, l.color.nombre, talla]
  }

  /** The variant label: the full name if given, else the present parts
      joined by " / ". */
  function Etiqueta(l: LineaItem): (r: string)
    ensures Truthy(l.variante.nombreCompleto) ==> r == l.variante.nombreCompleto.value
    ensures !Truthy(l.variante.nombreCompleto) ==> r == Join(Presentes(PartesEtiqueta(l)), " / ")
  {
    OrStr(l.variante.nombreCompleto, Join(Presentes(PartesEtiqueta(l)), " / "))
  }

  /** Without a full name the label is as long as its present parts plus
      one three-character separator between each neighbouring pair. */
  lemma EtiquetaLongitud(l: LineaItem)
    requires !Truthy(l.variante.nombreCompleto) && |Presentes(PartesEtiqueta(l))| > 0
    ensures |Etiqueta(l)| == TotalLength(Presentes(PartesEtiqueta(l))) + (|Presentes(PartesEtiqueta(l))| - 1) * 3
  {
    JoinLength(Presentes(PartesEtiqueta(l)), " / ");
  }

  /** Illustration: with only a colour name the label is that name. */
  lemma EtiquetaSoloColor(l: LineaItem, color: string)
    requires !Truthy(l.variante.nombreCompleto) && !Truthy(l.variante.tipo)
    requires l.color.nombre == Some(color) && color != "" && l.talla.None?
    ensures Etiqueta(l) == color
  {
    var ps := PartesEtiqueta(l);
    assert Presentes(ps) == Presentes(ps[2..]);
    assert Presentes(ps[2..]) == [color] + Presentes(ps[3..]);
  }
}
