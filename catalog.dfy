/** The product document of the current catalog: a tree
    product -> variants -> qualities -> colours -> optional sizes.
    A size, or a colour without sizes, is a stock-carrying leaf. Every node
    has a display order and an online-visibility flag. */
module Catalog {
  import opened Common

  datatype Talla = Talla(
    suk: Option<string>,
    codigo: Option<string>,
    talla: Option<string>,
    stock: int,
    costo: int,
    orden: int,
    disponibleOnline: bool)

  datatype Color = Color(
    color: string,
    codigoHex: string,
    disponibleOnline: bool,
    tallas: seq<Talla>,
    suk: Option<string>,
    stock: Option<int>,
    costo: Option<int>,
    orden: int)

  datatype Calidad = Calidad(
    calidad: Option<string>,
    disponibleOnline: bool,
    colores: seq<Color>,
    orden: int)

  datatype Variante = Variante(
    variante: Option<string>,
    disponibleOnline: bool,
    calidades: seq<Calidad>,
    orden: int)

  /** Which levels of the tree the product uses; an unused level has a
      single pass-through child. */
  datatype ConfigVariantes = ConfigVariantes(usaVariante: bool, usaCalidad: bool)

  datatype Imagen = Imagen(url: string, esPrincipal: bool, orden: int)

  datatype Producto = Producto(
    nombre: string,
    descripcion: string,
    categoria: Id,
    subcategoria: Id,
    configVariantes: ConfigVariantes,
    variantes: seq<Variante>,
    imagenes: seq<Imagen>,
    activo: bool,
    fechaCreacion: int,
    fechaActualizacion: int)

  /** The schema's default for a flag that is not given: nothing is online
      until it is switched on, and no optional level is in use. */
  const ONLINE_POR_DEFECTO := false
  const CONFIG_POR_DEFECTO := ConfigVariantes(false, false)

  /** A size needs its code, and its stock and cost are never negative. */
  predicate ValidTalla(t: Talla) {
    t.codigo.Some? && t.codigo.value != "" && t.stock >= 0 && t.costo >= 0
  }

  predicate ValidColor(c: Color) {
    c.color != "" && c.codigoHex != "" &&
    forall t :: t in c.tallas ==> ValidTalla(t)
  }

  predicate ValidCalidad(q: Calidad) {
    forall c :: c in q.colores ==> ValidColor(c)
  }

  predicate ValidVariante(v: Variante) {
    forall q :: q in v.calidades ==> ValidCalidad(q)
  }

  predicate ValidProducto(p: Producto) {
    p.nombre != "" && p.descripcion != "" &&
    (forall v :: v in p.variantes ==> ValidVariante(v)) &&
    forall i :: i in p.imagenes ==> i.url != ""
  }

  /** The one-child rule for levels the configuration switches off. */
  predicate RespetaConfig(p: Producto) {
    (!p.configVariantes.usaVariante ==> |p.variantes| <= 1) &&
    (!p.configVariantes.usaCalidad ==> forall v :: v in p.variantes ==> |v.calidades| <= 1)
  }

  /** No two siblings share a display order. */
  predicate OrdenesDistintas(ordenes: seq<int>) {
    forall i, j :: 0 <= i < j < |ordenes| ==> ordenes[i] != ordenes[j]
  }

  function OrdenTalla(t: Talla): int { t.orden }
  function OrdenColor(c: Color): int { c.orden }
  function OrdenCalidad(q: Calidad): int { q.orden }
  function OrdenVariante(v: Variante): int { v.orden }

  /** Display orders are distinct among the children of every node. */
  predicate OrdenesUnicas(p: Producto) {
    OrdenesDistintas(MapSeq(p.variantes, OrdenVariante)) &&
    forall v :: v in p.variantes ==>
      OrdenesDistintas(MapSeq(v.calidades, OrdenCalidad)) &&
      forall q :: q in v.calidades ==>
        OrdenesDistintas(MapSeq(q.colores, OrdenColor)) &&
        forall c :: c in q.colores ==> OrdenesDistintas(MapSeq(c.tallas, OrdenTalla))
  }

  // ---------------------------------------------------------------------
  // Documents as the schema fills them

  /** A size as stored: online only when switched on. */
  function TallaConDefectos(codigo: string, talla: Option<string>, stock: int, costo: int, orden: int,
                            disponibleOnline: Option<bool>): (t: Talla)
    ensures t.disponibleOnline == disponibleOnline.GetOr(ONLINE_POR_DEFECTO)
    ensures disponibleOnline.None? ==> !t.disponibleOnline
    ensures t.codigo == Some(codigo) && t.stock == stock && t.costo == costo && t.orden == orden
    ensures ValidTalla(t) <==> codigo != "" && stock >= 0 && costo >= 0
  {
    Talla(None, Some(codigo), talla, stock, costo, orden, disponibleOnline.GetOr(ONLINE_POR_DEFECTO))
  }

  /** A colour as stored; its own stock and cost are optional. */
  function ColorConDefectos(color: string, codigoHex: string, tallas: seq<Talla>, stock: Option<int>,
                            costo: Option<int>, orden: int, disponibleOnline: Option<bool>): (c: Color)
    ensures c.disponibleOnline == disponibleOnline.GetOr(ONLINE_POR_DEFECTO)
    ensures c.tallas == tallas && c.stock == stock && c.costo == costo && c.orden == orden
    ensures ValidColor(c) <==> color != "" && codigoHex != "" && forall t :: t in tallas ==> ValidTalla(t)
  {
    Color(color, codigoHex, disponibleOnline.GetOr(ONLINE_POR_DEFECTO), tallas, None, stock, costo, orden)
  }

  function CalidadConDefectos(calidad: Option<string>, colores: seq<Color>, orden: int,
                              disponibleOnline: Option<bool>): (q: Calidad)
    ensures disponibleOnline.None? ==> !q.disponibleOnline
    ensures disponibleOnline.Some? ==> q.disponibleOnline == disponibleOnline.value
    ensures q.calidad == calidad && q.colores == colores && q.orden == orden
  {
    Calidad(calidad, disponibleOnline.GetOr(ONLINE_POR_DEFECTO), colores, orden)
  }

  function VarianteConDefectos(variante: Option<string>, calidades: seq<Calidad>, orden: int,
                               disponibleOnline: Option<bool>): (v: Variante)
    ensures disponibleOnline.None? ==> !v.disponibleOnline
    ensures disponibleOnline.Some? ==> v.disponibleOnline == disponibleOnline.value
    ensures v.variante == variante && v.calidades == calidades && v.orden == orden
  {
    Variante(variante, disponibleOnline.GetOr(ONLINE_POR_DEFECTO), calidades, orden)
  }

  /** The level flags: each is off unless given. */
  function ConfigConDefectos(usaVariante: Option<bool>, usaCalidad: Option<bool>): (c: ConfigVariantes)
    ensures c.usaVariante == usaVariante.GetOr(false) && c.usaCalidad == usaCalidad.GetOr(false)
    ensures usaVariante.None? && usaCalidad.None? ==> c == CONFIG_POR_DEFECTO
  {
    ConfigVariantes(usaVariante.GetOr(false), usaCalidad.GetOr(false))
  }

  /** In a valid product every size, at any depth, has its code and
      non-negative stock and cost. */
  lemma HojasValidas(p: Producto, v: Variante, q: Calidad, c: Color, t: Talla)
    requires ValidProducto(p) && v in p.variantes && q in v.calidades && c in q.colores && t in c.tallas
    ensures t.codigo.Some? && t.stock >= 0 && t.costo >= 0
  {
  }
}
