/** Direct sales: a sale is built from (product, quantity) pairs priced from
    the product collection, and its state can be overwritten later. */
module DirectSales {
  import opened Common

  datatype ItemVenta = ItemVenta(producto: Id, cantidad: int)

  /** A processed item: the product, the quantity and `precio * cantidad`. */
  datatype Procesado = Procesado(producto: Id, cantidad: int, subtotal: int)

  datatype VentaDirecta = VentaDirecta(usuario: Id, productos: seq<Procesado>, total: int, fecha: int, estado: Option<string>)

  datatype ResultadoVenta = Creada(id: Id) | DatosIncompletos | ProductoNoEncontrado(producto: Id) | Actualizada | NoEncontrada

  /** The sum of the subtotals, accumulated from the front. */
  function Suma(ps: seq<Procesado>): int {
    if |ps| == 0 then 0 else Suma(ps[..|ps| - 1]) + ps[|ps| - 1].subtotal
  }

  lemma {:induction false} SumaConcat(a: seq<Procesado>, b: seq<Procesado>)
    ensures Suma(a + b) == Suma(a) + Suma(b)
    decreases |b|
  {
    if |b| > 0 {
      var ab := a + b;
      assert ab[..|ab| - 1] == a + b[..|b| - 1];
      SumaConcat(a, b[..|b| - 1]);
    } else {
      assert a + b == a;
    }
  }

  /** With non-negative prices and quantities the total is non-negative. */
  lemma {:induction false} SumaNoNegativa(ps: seq<Procesado>)
    requires forall i :: 0 <= i < |ps| ==> ps[i].subtotal >= 0
    ensures Suma(ps) >= 0
  {
    if |ps| > 0 {
      SumaNoNegativa(ps[..|ps| - 1]);
    }
  }

  /** An item priced from `precios`. */
  function ProcesadoDe(it: ItemVenta, precios: map<Id, int>): Procesado
    requires it.producto in precios
  {
    Procesado(it.producto, it.cantidad, precios[it.producto] * it.cantidad)
  }

  predicate PrimeraDesconocida(items: seq<ItemVenta>, precios: map<Id, int>, k: nat) {
    k < |items| && items[k].producto !in precios &&
    forall j :: 0 <= j < k ==> items[j].producto in precios
  }

  /** The loop over the request's items: each is looked up and priced; the
      first unknown product stops the loop. */
  method ProcesarProductos(items: seq<ItemVenta>, precios: map<Id, int>)
    returns (r: Result<(seq<Procesado>, int), Id>)
    ensures r.Ok? <==> forall i :: 0 <= i < |items| ==> items[i].producto in precios
    ensures r.Err? ==> exists k: nat :: PrimeraDesconocida(items, precios, k) && r.error == items[k].producto
    ensures r.Ok? ==>
      var (procesados, total) := r.value;
      |procesados| == |items| &&
      (forall i :: 0 <= i < |items| ==> items[i].producto in precios && procesados[i] == ProcesadoDe(items[i], precios)) &&
      total == Suma(procesados)
  {
    var total := 0;
    var procesados: seq<Procesado> := [];
    var n := 0;
    while n < |items|
      invariant 0 <= n <= |items| && |procesados| == n
      invariant forall i :: 0 <= i < n ==> items[i].producto in precios && procesados[i] == ProcesadoDe(items[i], precios)
      invariant total == Suma(procesados)
    {
      var item := items[n];
      if item.producto !in precios {
        assert PrimeraDesconocida(items, precios, n);
        return Err(item.producto);
      }
      var subtotal := precios[item.producto] * item.cantidad;
      total := total + subtotal;
      var antes := procesados;
      procesados := procesados + [Procesado(item.producto, item.cantidad, subtotal)];
      assert procesados[..|procesados| - 1] == antes;
      n := n + 1;
    }
    r := Ok((procesados, total));
  }

  class Registro {
    var ventas: map<Id, VentaDirecta>

    constructor ()
      ensures ventas == map[]
    {
      ventas := map[];
    }

    /** Records a sale for the authenticated user: 400 for a missing or
        empty list, 404 for the first unknown product, and nothing saved in
        either case. */
    method CrearVenta(productos: Option<seq<ItemVenta>>, precios: map<Id, int>, usuario: Id, now: int, nuevoId: Id)
      returns (r: ResultadoVenta)
      requires nuevoId !in ventas
      modifies this
      ensures productos.None? || |productos.value| == 0 ==> r == DatosIncompletos && ventas == old(ventas)
      ensures r.ProductoNoEncontrado? ==>
        ventas == old(ventas) && productos.Some? &&
        exists k: nat :: PrimeraDesconocida(productos.value, precios, k) && r.producto == productos.value[k].producto
      ensures r.Creada? ==>
        productos.Some? && r.id == nuevoId && nuevoId in ventas && ventas == old(ventas)[nuevoId := ventas[nuevoId]] &&
        var v := ventas[nuevoId];
        v.usuario == usuario && v.fecha == now && |v.productos| == |productos.value| &&
        (forall i :: 0 <= i < |v.productos| ==>
          productos.value[i].producto in precios && v.productos[i] == ProcesadoDe(productos.value[i], precios)) &&
        v.total == Suma(v.productos)
      ensures r.Creada? || r.DatosIncompletos? || r.ProductoNoEncontrado?
      ensures productos.Some? && |productos.value| > 0 ==>
        (r.Creada? <==> forall i :: 0 <= i < |productos.value| ==> productos.value[i].producto in precios)
    {
      if productos.None? || |productos.value| == 0 {
        return DatosIncompletos;
      }
      var p := ProcesarProductos(productos.value, precios);
      if p.Err? {
        return ProductoNoEncontrado(p.error);
      }
      var (procesados, total) := p.value;
      ventas := ventas[nuevoId := VentaDirecta(usuario, procesados, total, now, None)];
      r := Creada(nuevoId);
    }

    /** Overwrites the state of sale `id` and nothing else; 404 when the
        sale does not exist. */
    method ActualizarEstado(id: Id, estado: string) returns (r: ResultadoVenta)
      modifies this
      ensures id !in old(ventas) ==> r == NoEncontrada && ventas == old(ventas)
      ensures id in old(ventas) ==>
        r == Actualizada && ventas == old(ventas)[id := old(ventas)[id].(estado := Some(estado))]
    {
      if id !in ventas {
        return NoEncontrada;
      }
      ventas := ventas[id := ventas[id].(estado := Some(estado))];
      r := Actualizada;
    }
  }
}
