/** The public storefront over the catalog tree: the online-visible view of
    a product, the "listable" test for base products, the price range of a
    new online product, paging, and the design-category store. */
module Storefront {
  import opened Common
  import opened Catalog

  // ---------------------------------------------------------------------
  // Public view of a product (only what is online)

  predicate TallaVisible(t: Talla) { t.disponibleOnline && t.stock > 0 }
  predicate ColorOnline(c: Color) { c.disponibleOnline }
  predicate CalidadOnline(q: Calidad) { q.disponibleOnline }
  predicate VarianteOnline(v: Variante) { v.disponibleOnline }

  function VistaColor(c: Color): Color {
    c.(tallas := Keep(c.tallas, TallaVisible))
  }

  function VistaCalidad(q: Calidad): Calidad {
    q.(colores := MapSeq(Keep(q.colores, ColorOnline), VistaColor))
  }

  function VistaVariante(v: Variante): Variante {
    v.(calidades := MapSeq(Keep(v.calidades, CalidadOnline), VistaCalidad))
  }

  /** The product as the public page shows it: online variants, their
      online qualities, their online colours, and the online sizes with
      stock. */
  function VistaPublica(p: Producto): Producto {
    p.(variantes := MapSeq(Keep(p.variantes, VarianteOnline), VistaVariante))
  }

  predicate ColorVisible(c: Color) {
    c.disponibleOnline && forall t :: t in c.tallas ==> TallaVisible(t)
  }

  predicate CalidadVisible(q: Calidad) {
    q.disponibleOnline && forall c :: c in q.colores ==> ColorVisible(c)
  }

  predicate VarianteVisible(v: Variante) {
    v.disponibleOnline && forall q :: q in v.calidades ==> CalidadVisible(q)
  }

  /** Everything the view keeps is online, and every size it keeps has stock. */
  lemma VistaSoloVisible(p: Producto)
    ensures forall v :: v in VistaPublica(p).variantes ==> VarianteVisible(v)
  {
    forall v | v in VistaPublica(p).variantes
      ensures VarianteVisible(v)
    {
      var w := MapSeqOrigen(Keep(p.variantes, VarianteOnline), VistaVariante, v);
      forall q | q in v.calidades
        ensures CalidadVisible(q)
      {
        var r := MapSeqOrigen(Keep(w.calidades, CalidadOnline), VistaCalidad, q);
        forall c | c in q.colores
          ensures ColorVisible(c)
        {
          var d := MapSeqOrigen(Keep(r.colores, ColorOnline), VistaColor, c);
        }
      }
    }
  }

  /** Nothing online is dropped: every online variant, quality and colour
      of the product appears in the view, with its children projected. */
  lemma VistaConservaLoVisible(p: Producto, v: Variante, q: Calidad, c: Color)
    requires v in p.variantes && v.disponibleOnline
    requires q in v.calidades && q.disponibleOnline
    requires c in q.colores && c.disponibleOnline
    ensures VistaVariante(v) in VistaPublica(p).variantes
    ensures VistaCalidad(q) in VistaVariante(v).calidades
    ensures VistaColor(c) in VistaCalidad(q).colores
    ensures forall t :: t in c.tallas && TallaVisible(t) ==> t in VistaColor(c).tallas
  {
    MapSeqContiene(Keep(p.variantes, VarianteOnline), VistaVariante, v);
    MapSeqContiene(Keep(v.calidades, CalidadOnline), VistaCalidad, q);
    MapSeqContiene(Keep(q.colores, ColorOnline), VistaColor, c);
  }

  lemma MapSeqContiene<T, U>(s: seq<T>, f: T -> U, x: T)
    requires x in s
    ensures f(x) in MapSeq(s, f)
  {
    var i :| 0 <= i < |s| && s[i] == x;
    assert MapSeq(s, f)[i] == f(x);
  }

  lemma MapSeqOrigen<T, U>(s: seq<T>, f: T -> U, y: U) returns (x: T)
    requires y in MapSeq(s, f)
    ensures x in s && y == f(x)
  {
    var i :| 0 <= i < |MapSeq(s, f)| && MapSeq(s, f)[i] == y;
    x := s[i];
  }

  // ---------------------------------------------------------------------
  // The view is a sub-tree of the product

  predicate IgualTalla(a: Talla, b: Talla) { a == b }

  predicate SubColor(a: Color, b: Color) {
    a.(tallas := b.tallas) == b && Embeds(a.tallas, b.tallas, IgualTalla)
  }

  predicate SubCalidad(a: Calidad, b: Calidad) {
    a.(colores := b.colores) == b && Embeds(a.colores, b.colores, SubColor)
  }

  predicate SubVariante(a: Variante, b: Variante) {
    a.(calidades := b.calidades) == b && Embeds(a.calidades, b.calidades, SubCalidad)
  }

  /** `a` is `b` with some children removed at every level, the rest kept
      unchanged and in their original order. */
  predicate SubArbol(a: Producto, b: Producto) {
    a.(variantes := b.variantes) == b && Embeds(a.variantes, b.variantes, SubVariante)
  }

  lemma {:induction false} KeepEmbeds<T>(s: seq<T>, p: T -> bool, rel: (T, T) -> bool)
    requires forall x :: rel(x, x)
    ensures Embeds(Keep(s, p), s, rel)
  {
    if |s| > 0 {
      KeepEmbeds(s[1..], p, rel);
      if p(s[0]) {
        assert Keep(s, p)[1..] == Keep(s[1..], p);
      } else {
        EmbedsSkip(Keep(s[1..], p), s, rel);
      }
    }
  }

  lemma VistaColorSub(c: Color)
    ensures SubColor(VistaColor(c), c)
  {
    KeepEmbeds(c.tallas, TallaVisible, IgualTalla);
  }

  lemma VistaCalidadSub(q: Calidad)
    ensures SubCalidad(VistaCalidad(q), q)
  {
    forall c ensures SubColor(VistaColor(c), c) { VistaColorSub(c); }
    KeepMapEmbeds(q.colores, ColorOnline, VistaColor, SubColor);
  }

  lemma VistaVarianteSub(v: Variante)
    ensures SubVariante(VistaVariante(v), v)
  {
    forall q ensures SubCalidad(VistaCalidad(q), q) { VistaCalidadSub(q); }
    KeepMapEmbeds(v.calidades, CalidadOnline, VistaCalidad, SubCalidad);
  }

  /** The public view is a sub-tree of the stored product. */
  lemma VistaEsSubArbol(p: Producto)
    ensures SubArbol(VistaPublica(p), p)
  {
    forall v ensures SubVariante(VistaVariante(v), v) { VistaVarianteSub(v); }
    KeepMapEmbeds(p.variantes, VarianteOnline, VistaVariante, SubVariante);
  }

  // ---------------------------------------------------------------------
  // Which base products can be offered online

  /** Some online variant has an online quality with an online colour;
      sizes and stock are not consulted. */
  predicate TieneCaminoOnline(p: Producto) {
    exists v :: v in p.variantes && v.disponibleOnline &&
      exists q :: q in v.calidades && q.disponibleOnline &&
        exists c :: c in q.colores && c.disponibleOnline
  }

  /** The view has a path down to some colour. */
  predicate VistaConColor(p: Producto) {
    exists v :: v in p.variantes && exists q :: q in v.calidades && exists c :: c in q.colores
  }

  /** A base product is listed exactly when its public view still reaches
      some colour. */
  lemma ListadoSiiVistaConColor(p: Producto)
    ensures TieneCaminoOnline(p) <==> VistaConColor(VistaPublica(p))
  {
    if TieneCaminoOnline(p) {
      var v, q, c :| v in p.variantes && v.disponibleOnline &&
        q in v.calidades && q.disponibleOnline && c in q.colores && c.disponibleOnline;
      VistaConservaLoVisible(p, v, q, c);
    }
    if VistaConColor(VistaPublica(p)) {
      var v', q', c' :| v' in VistaPublica(p).variantes && q' in v'.calidades && c' in q'.colores;
      var v := MapSeqOrigen(Keep(p.variantes, VarianteOnline), VistaVariante, v');
      var q := MapSeqOrigen(Keep(v.calidades, CalidadOnline), VistaCalidad, q');
      var c := MapSeqOrigen(Keep(q.colores, ColorOnline), VistaColor, c');
      assert c in q.colores && c.disponibleOnline;
    }
  }

  /** The base products offered for online sale, in their stored order. */
  function ProductosBaseListados(ps: seq<Producto>): (r: seq<Producto>)
    ensures forall p :: p in r <==> p in ps && TieneCaminoOnline(p)
  {
    Keep(ps, TieneCaminoOnline)
  }

  // ---------------------------------------------------------------------
  // Candidate prices of a product

  /** Concatenation of `f` over `s`, built from the back so that a loop
      that appends element by element equals it on every prefix. */
  function FlatMap<T>(s: seq<T>, f: T -> seq<int>): seq<int> {
    if |s| == 0 then [] else FlatMap(s[..|s| - 1], f) + f(s[|s| - 1])
  }

  lemma {:induction false} FlatMapContiene<T>(s: seq<T>, f: T -> seq<int>, x: int)
    ensures x in FlatMap(s, f) <==> exists e :: e in s && x in f(e)
  {
    if |s| > 0 {
      FlatMapContiene(s[..|s| - 1], f, x);
      assert s == s[..|s| - 1] + [s[|s| - 1]];
      if x in FlatMap(s, f) && x !in FlatMap(s[..|s| - 1], f) {
        assert x in f(s[|s| - 1]);
      }
    }
  }

  function PrecioTalla(t: Talla): seq<int> {
    if TallaVisible(t) then [t.costo] else []
  }

  /** An online colour contributes its online in-stock sizes' costs, or,
      having no sizes, its own cost when that is truthy. */
  function PreciosColor(c: Color): seq<int> {
    if !c.disponibleOnline then []
    else if |c.tallas| > 0 then FlatMap(c.tallas, PrecioTalla)
    else if TruthyNum(c.costo) then [c.costo.value]
    else []
  }

  function PreciosCalidad(q: Calidad): seq<int> {
    if q.disponibleOnline then FlatMap(q.colores, PreciosColor) else []
  }

  function PreciosVariante(v: Variante): seq<int> {
    if v.disponibleOnline then FlatMap(v.calidades, PreciosCalidad) else []
  }

  /** The candidate prices of a product, in tree order. */
  function Precios(p: Producto): seq<int> {
    FlatMap(p.variantes, PreciosVariante)
  }

  /** Some colour of `v`, without sizes, has its own cost `x`. */
  predicate ConCostoPropio(v: Variante, x: int) {
    exists q :: q in v.calidades && exists c :: c in q.colores && |c.tallas| == 0 && c.costo == Some(x)
  }

  /** In a valid product a negative candidate price can only be the own
      cost of a colour without sizes: the schema bounds every size's cost
      but not a colour's. */
  lemma PrecioNegativoSoloDeColor(p: Producto, x: int)
    requires ValidProducto(p) && x in Precios(p) && x < 0
    ensures exists v :: v in p.variantes && ConCostoPropio(v, x)
  {
    PreciosCaracterizados(p, x);
    var v :| v in p.variantes && v.disponibleOnline &&
      exists q :: q in v.calidades && q.disponibleOnline && exists c :: c in q.colores && PrecioDeColor(c, x);
    var q :| q in v.calidades && q.disponibleOnline && exists c :: c in q.colores && PrecioDeColor(c, x);
    var c :| c in q.colores && PrecioDeColor(c, x);
    forall t | t in c.tallas
      ensures t.costo >= 0
    {
      HojasValidas(p, v, q, c, t);
    }
    assert |c.tallas| == 0;
    assert ConCostoPropio(v, x);
  }

  /** `x` is a candidate price exactly when it is the cost of an online
      in-stock size under an online colour with sizes, or the truthy cost of
      an online colour without sizes, on an online quality of an online
      variant. */
  predicate PrecioDeColor(c: Color, x: int) {
    c.disponibleOnline &&
    ((|c.tallas| > 0 && exists t :: t in c.tallas && TallaVisible(t) && t.costo == x) ||
     (|c.tallas| == 0 && TruthyNum(c.costo) && c.costo.value == x))
  }

  lemma PreciosDeColor(c: Color, x: int)
    ensures x in PreciosColor(c) <==> PrecioDeColor(c, x)
  {
    FlatMapContiene(c.tallas, PrecioTalla, x);
  }

  lemma PreciosCaracterizados(p: Producto, x: int)
    ensures x in Precios(p) <==>
      exists v :: v in p.variantes && v.disponibleOnline &&
        exists q :: q in v.calidades && q.disponibleOnline &&
          exists c :: c in q.colores && PrecioDeColor(c, x)
  {
    FlatMapContiene(p.variantes, PreciosVariante, x);
    forall v | v in p.variantes
      ensures x in PreciosVariante(v) <==> (v.disponibleOnline &&
        exists q :: q in v.calidades && q.disponibleOnline &&
          exists c :: c in q.colores && PrecioDeColor(c, x))
    {
      FlatMapContiene(v.calidades, PreciosCalidad, x);
      forall q | q in v.calidades
        ensures x in PreciosCalidad(q) <==> (q.disponibleOnline &&
          exists c :: c in q.colores && PrecioDeColor(c, x))
      {
        FlatMapContiene(q.colores, PreciosColor, x);
        forall c | c in q.colores ensures x in PreciosColor(c) <==> PrecioDeColor(c, x) {
          PreciosDeColor(c, x);
        }
      }
    }
  }

  /** The nested `forEach` that fills `precios`, one level per method. */
  method CalcularPrecios(p: Producto) returns (precios: seq<int>)
    ensures precios == Precios(p)
  {
    precios := [];
    var i := 0;
    while i < |p.variantes|
      invariant 0 <= i <= |p.variantes|
      invariant precios == FlatMap(p.variantes[..i], PreciosVariante)
    {
      var v := p.variantes[i];
      if v.disponibleOnline {
        precios := AgregarPreciosVariante(precios, v);
      }
      assert p.variantes[..i + 1][..i] == p.variantes[..i];
      i := i + 1;
    }
    assert p.variantes[..i] == p.variantes;
  }

  method AgregarPreciosVariante(precios0: seq<int>, v: Variante) returns (precios: seq<int>)
    requires v.disponibleOnline
    ensures precios == precios0 + PreciosVariante(v)
  {
    precios := precios0;
    var j := 0;
    while j < |v.calidades|
      invariant 0 <= j <= |v.calidades|
      invariant precios == precios0 + FlatMap(v.calidades[..j], PreciosCalidad)
    {
      var q := v.calidades[j];
      if q.disponibleOnline {
        precios := AgregarPreciosCalidad(precios, q);
      }
      assert v.calidades[..j + 1][..j] == v.calidades[..j];
      j := j + 1;
    }
    assert v.calidades[..j] == v.calidades;
  }

  method AgregarPreciosCalidad(precios0: seq<int>, q: Calidad) returns (precios: seq<int>)
    requires q.disponibleOnline
    ensures precios == precios0 + PreciosCalidad(q)
  {
    precios := precios0;
    var k := 0;
    while k < |q.colores|
      invariant 0 <= k <= |q.colores|
      invariant precios == precios0 + FlatMap(q.colores[..k], PreciosColor)
    {
      var c := q.colores[k];
      if c.disponibleOnline {
        if |c.tallas| > 0 {
          precios := AgregarPreciosTallas(precios, c.tallas);
        } else if c.costo.Some? && c.costo.value != 0 {
          precios := precios + [c.costo.value];
        }
      }
      assert q.colores[..k + 1][..k] == q.colores[..k];
      k := k + 1;
    }
    assert q.colores[..k] == q.colores;
  }

  method AgregarPreciosTallas(precios0: seq<int>, ts: seq<Talla>) returns (precios: seq<int>)
    ensures precios == precios0 + FlatMap(ts, PrecioTalla)
  {
    precios := precios0;
    var l := 0;
    while l < |ts|
      invariant 0 <= l <= |ts|
      invariant precios == precios0 + FlatMap(ts[..l], PrecioTalla)
    {
      var t := ts[l];
      if t.disponibleOnline && t.stock > 0 {
        precios := precios + [t.costo];
      }
      assert ts[..l + 1][..l] == ts[..l];
      l := l + 1;
    }
    assert ts[..l] == ts;
  }

  /** `Math.min(...s)` for a non-empty list. */
  function Minimo(s: seq<int>): (r: int)
    requires |s| > 0
    ensures r in s && forall x :: x in s ==> r <= x
  {
    if |s| == 1 then s[0]
    else
      assert forall x :: x in s ==> x == s[0] || x in s[1..];
      var m := Minimo(s[1..]); if s[0] <= m then s[0] else m
  }

  /** `Math.max(...s)` for a non-empty list. */
  function Maximo(s: seq<int>): (r: int)
    requires |s| > 0
    ensures r in s && forall x :: x in s ==> x <= r
  {
    if |s| == 1 then s[0]
    else
      assert forall x :: x in s ==> x == s[0] || x in s[1..];
      var m := Maximo(s[1..]); if s[0] >= m then s[0] else m
  }

  /** Price range of a product: none when it has no candidate price. */
  function RangoPrecios(p: Producto): (r: Option<(int, int)>)
    ensures r.None? <==> |Precios(p)| == 0
    ensures r.Some? ==> r.value.0 <= r.value.1
    ensures r.Some? ==> r.value.0 in Precios(p) && r.value.1 in Precios(p)
    ensures r.Some? ==> forall x :: x in Precios(p) ==> r.value.0 <= x <= r.value.1
  {
    var ps := Precios(p);
    if |ps| == 0 then None else Some((Minimo(ps), Maximo(ps)))
  }

  // ---------------------------------------------------------------------
  // Paging of the public product list

  /** The page size and page number a listing uses when the query omits them. */
  const LIMITE_POR_DEFECTO: int := 12
  const PAGINA_POR_DEFECTO: int := 1

  /** Number of documents skipped to reach page `page` (default 1) with
      pages of `limit` documents (default 12). */
  function Salto(page: Option<int>, limit: Option<int>): (r: int)
    ensures page.None? ==> r == 0
    ensures page.Some? && limit.None? ==> r == (page.value - 1) * 12
    ensures page.Some? && limit.Some? ==> r == (page.value - 1) * limit.value
  {
    (page.GetOr(PAGINA_POR_DEFECTO) - 1) * limit.GetOr(LIMITE_POR_DEFECTO)
  }

  /** `Math.ceil(total / limit)` with `limit` defaulting to 12; no page
      count for a limit that is not positive (the source then divides by
      zero or by a negative). */
  function Paginas(total: nat, limit: Option<int>): (r: Option<nat>)
    ensures limit.None? ==> r.Some? && r.value * 12 >= total && (r.value == 0 || (r.value - 1) * 12 < total)
    ensures limit.Some? ==> (limit.value > 0 <==> r.Some?)
    ensures limit.Some? && r.Some? ==>
      r.value * limit.value >= total && (r.value == 0 || (r.value - 1) * limit.value < total)
  {
    var l := limit.GetOr(LIMITE_POR_DEFECTO);
    if l > 0 then Some(CeilDiv(total, l)) else None
  }

  /** Every one of the `total` documents lies on exactly the page numbered
      `k / limit + 1`, and that page is within the page count. */
  lemma PaginaDeElemento(total: nat, limit: Option<int>, k: nat)
    requires limit.GetOr(LIMITE_POR_DEFECTO) > 0 && k < total
    ensures var l := limit.GetOr(LIMITE_POR_DEFECTO);
      var page := k / l + 1;
      1 <= page <= Paginas(total, limit).value &&
      Salto(Some(page), limit) <= k < Salto(Some(page), limit) + l
  {
    var l := limit.GetOr(LIMITE_POR_DEFECTO);
    var q := k / l;
    var n := Paginas(total, limit).value;
    assert k == q * l + k % l;
    assert q * l < n * l;
    MulCancel(q, n, l);
  }

  lemma MulCancel(a: nat, b: nat, c: nat)
    requires c > 0 && a * c < b * c
    ensures a < b
  {
    if a >= b {
      MulMonotone(b, a, c);
    }
  }

  lemma MulMonotone(a: nat, b: nat, c: nat)
    requires a <= b
    ensures a * c <= b * c
  {
  }

  // ---------------------------------------------------------------------
  // Online products and design categories

  datatype ConfigColor = ConfigColor(colorFijo: bool, colorRequerido: Option<string>)

  /** The variant shown first: a cut, a quality, a colour and maybe a size. */
  datatype VarianteSugerida = VarianteSugerida(corte: Id, calidad: Id, color: Id, talla: Option<Id>)

  datatype ProductoOnline = ProductoOnline(
    slug: string,
    nombre: string,
    descripcionCorta: Option<string>,
    descripcion: string,
    precioMinimo: int,
    precioMaximo: int,
    diseno: string,
    imagenes: seq<Imagen>,
    productoBase: Id,
    varianteSugerida: Option<VarianteSugerida>,
    configColor: ConfigColor,
    categorias: seq<Id>,
    etiquetas: seq<string>,
    activo: bool,
    destacado: bool)

  /** The request body of a new online product. */
  datatype SolicitudProductoOnline = SolicitudProductoOnline(
    productoBase: Id,
    slug: string,
    nombre: string,
    descripcionCorta: Option<string>,
    descripcion: string,
    diseno: string,
    imagenes: Option<seq<Imagen>>,
    varianteSugerida: Option<VarianteSugerida>,
    configColor: Option<ConfigColor>,
    categorias: Option<seq<Id>>,
    etiquetas: Option<seq<string>>,
    destacado: Option<bool>)

  datatype CategoriaDiseno = CategoriaDiseno(
    nombre: Option<string>,
    descripcion: Option<string>,
    orden: int,
    activo: bool,
    fechaCreacion: int)

  datatype Respuesta =
    | Creado(id: Id)
    | Actualizado
    | NoEncontrado    // 404
    | SlugExistente   // 400
    | SinPrecios      // 400
    | Rechazado       // 500: the schema refuses the document on save

  /** The online product a successful creation stores: the request's
      fields, the computed prices, and defaults for what is omitted. */
  function NuevoProductoOnline(s: SolicitudProductoOnline, minimo: int, maximo: int): (r: ProductoOnline)
    ensures r.slug == s.slug && r.productoBase == s.productoBase
    ensures r.nombre == s.nombre && r.descripcion == s.descripcion && r.diseno == s.diseno
    ensures r.descripcionCorta == s.descripcionCorta && r.varianteSugerida == s.varianteSugerida
    ensures r.precioMinimo == minimo && r.precioMaximo == maximo
    ensures r.activo
    ensures r.destacado <==> s.destacado == Some(true)
    ensures s.imagenes.None? ==> r.imagenes == []
    ensures s.categorias.None? ==> r.categorias == []
    ensures s.etiquetas.None? ==> r.etiquetas == []
    ensures s.configColor.None? ==> r.configColor.colorFijo
  {
    ProductoOnline(
      s.slug, s.nombre, s.descripcionCorta, s.descripcion, minimo, maximo, s.diseno,
      s.imagenes.GetOr([]), s.productoBase, s.varianteSugerida,
      s.configColor.GetOr(ConfigColor(true, None)),
      s.categorias.GetOr([]), s.etiquetas.GetOr([]),
      true, s.destacado == Some(true))
  }

  /** What the online-product schema demands on save: the required strings
      are non-empty, the short description has at most 200 characters, the
      price bounds are not negative, every image has a url, and the
      suggested variant is there, since its cut, quality and colour are
      required paths. */
  predicate ValidProductoOnline(p: ProductoOnline) {
    p.slug != "" && p.nombre != "" && p.descripcion != "" && p.diseno != "" &&
    (p.descripcionCorta.None? || |p.descripcionCorta.value| <= 200) &&
    p.precioMinimo >= 0 && p.precioMaximo >= 0 &&
    (forall i :: 0 <= i < |p.imagenes| ==> p.imagenes[i].url != "") &&
    p.varianteSugerida.Some?
  }

  /** A request without a suggested variant is never saved, whatever the
      prices. */
  lemma SinVarianteSugeridaRechazado(s: SolicitudProductoOnline, minimo: int, maximo: int)
    requires s.varianteSugerida.None?
    ensures !ValidProductoOnline(NuevoProductoOnline(s, minimo, maximo))
  {
  }

  /** A request whose own fields satisfy the schema is saved once its price
      bounds are not negative. */
  lemma SolicitudCompletaAceptada(s: SolicitudProductoOnline, minimo: int, maximo: int)
    requires s.slug != "" && s.nombre != "" && s.descripcion != "" && s.diseno != ""
    requires s.descripcionCorta.None? || |s.descripcionCorta.value| <= 200
    requires s.imagenes.None? || forall i :: 0 <= i < |s.imagenes.value| ==> s.imagenes.value[i].url != ""
    requires s.varianteSugerida.Some? && 0 <= minimo && 0 <= maximo
    ensures ValidProductoOnline(NuevoProductoOnline(s, minimo, maximo))
  {
  }

  predicate SlugUsado(m: map<Id, ProductoOnline>, slug: string) {
    exists id :: id in m && m[id].slug == slug
  }

  /** The store's collections that the storefront reads and writes. */
  class Tienda {
    var productosBase: map<Id, Producto>
    var productosOnline: map<Id, ProductoOnline>
    var categoriasDisenos: map<Id, CategoriaDiseno>

    constructor (base: map<Id, Producto>)
      ensures productosBase == base && productosOnline == map[] && categoriasDisenos == map[]
    {
      productosBase := base;
      productosOnline := map[];
      categoriasDisenos := map[];
    }

    /** Slugs are unique among the online products. */
    ghost predicate SlugsUnicos()
      reads this
    {
      forall a, b ::
        a in productosOnline && b in productosOnline && productosOnline[a].slug == productosOnline[b].slug
        ==> a == b
    }

    /** The base product exists and the slug is free. */
    ghost predicate Admisible(s: SolicitudProductoOnline, online: map<Id, ProductoOnline>)
      reads this
    {
      s.productoBase in productosBase && !SlugUsado(online, s.slug)
    }

    /** Creates an online product: 404 for an unknown base product, 400
        for a slug in use, 400 when no online leaf has a price, 500 when the
        schema refuses the document; otherwise stores it with the base
        product's price range. */
    method CrearProductoOnline(s: SolicitudProductoOnline, nuevoId: Id) returns (r: Respuesta)
      requires nuevoId !in productosOnline
      modifies this
      ensures productosBase == old(productosBase) && categoriasDisenos == old(categoriasDisenos)
      ensures s.productoBase !in productosBase ==>
        r == NoEncontrado && productosOnline == old(productosOnline)
      ensures s.productoBase in productosBase && SlugUsado(old(productosOnline), s.slug) ==>
        r == SlugExistente && productosOnline == old(productosOnline)
      ensures Admisible(s, old(productosOnline)) && RangoPrecios(productosBase[s.productoBase]).None? ==>
        r == SinPrecios && productosOnline == old(productosOnline)
      ensures Admisible(s, old(productosOnline)) && RangoPrecios(productosBase[s.productoBase]).Some? ==>
        var rango := RangoPrecios(productosBase[s.productoBase]).value;
        var p := NuevoProductoOnline(s, rango.0, rango.1);
        (!ValidProductoOnline(p) ==> r == Rechazado && productosOnline == old(productosOnline)) &&
        (ValidProductoOnline(p) ==> r == Creado(nuevoId) && productosOnline == old(productosOnline)[nuevoId := p])
      ensures old(SlugsUnicos()) ==> SlugsUnicos()
    {
      if s.productoBase !in productosBase {
        return NoEncontrado;
      }
      if exists id :: id in productosOnline && productosOnline[id].slug == s.slug {
        return SlugExistente;
      }
      var base := productosBase[s.productoBase];
      var precios := CalcularPrecios(base);
      if |precios| == 0 {
        return SinPrecios;
      }
      var minimo := Minimo(precios);
      var maximo := Maximo(precios);
      var p := NuevoProductoOnline(s, minimo, maximo);
      if !ValidProductoOnline(p) {
        return Rechazado;
      }
      productosOnline := productosOnline[nuevoId := p];
      r := Creado(nuevoId);
    }

    /** A new design category; its order defaults to 0 when not truthy. */
    method CrearCategoriaDiseno(nombre: Option<string>, descripcion: Option<string>,
                                orden: Option<int>, now: int, nuevoId: Id) returns (r: Respuesta)
      requires nuevoId !in categoriasDisenos
      modifies this
      ensures r == Creado(nuevoId)
      ensures categoriasDisenos ==
        old(categoriasDisenos)[nuevoId := CategoriaDiseno(nombre, descripcion, OrNum(orden, 0), true, now)]
      ensures productosBase == old(productosBase) && productosOnline == old(productosOnline)
    {
      categoriasDisenos := categoriasDisenos[nuevoId := CategoriaDiseno(nombre, descripcion, OrNum(orden, 0), true, now)];
      r := Creado(nuevoId);
    }

    /** Soft delete: only the `activo` flag changes; 404 when unknown. */
    method EliminarCategoriaDiseno(id: Id) returns (r: Respuesta)
      modifies this
      ensures id !in old(categoriasDisenos) ==> r == NoEncontrado && categoriasDisenos == old(categoriasDisenos)
      ensures id in old(categoriasDisenos) ==>
        r == Actualizado &&
        categoriasDisenos == old(categoriasDisenos)[id := old(categoriasDisenos)[id].(activo := false)]
      ensures categoriasDisenos.Keys == old(categoriasDisenos).Keys
      ensures productosBase == old(productosBase) && productosOnline == old(productosOnline)
    {
      if id !in categoriasDisenos {
        return NoEncontrado;
      }
      categoriasDisenos := categoriasDisenos[id := categoriasDisenos[id].(activo := false)];
      r := Actualizado;
    }
  }
}
