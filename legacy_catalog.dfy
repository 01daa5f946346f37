/** The legacy two-level catalog document: product -> variants -> colours ->
    optional sizes, with no quality level. Quotation creation resolves its
    line items against this tree. */
module LegacyCatalog {
  import opened Common

  /** A size: its label is optional; stock and price are required. */
  datatype Talla = Talla(id: Id, talla: Option<string>, stock: int, precio: int)

  /** A colour: sizes are optional (clothing only); a colour without sizes
      may carry its own stock and price. */
  datatype Color = Color(id: Id, color: string, tallas: seq<Talla>,
                         stock: Option<int>, precio: Option<int>)

  /** A variant holds colours directly. */
  datatype Variante = Variante(id: Id, tipo: Option<string>, colores: seq<Color>)

  datatype Producto = Producto(
    id: Id,
    nombre: string,
    descripcion: string,
    categoria: Id,
    subcategoria: Id,
    calidad: Option<string>,
    corte: Option<string>,
    variantes: seq<Variante>,
    imagenes: seq<string>,
    activo: bool,
    fechaCreacion: int)

  predicate ValidTalla(t: Talla) {
    t.stock >= 0 && t.precio >= 0
  }

  predicate ValidColor(c: Color) {
    c.color != "" && forall t :: t in c.tallas ==> ValidTalla(t)
  }

  predicate ValidVariante(v: Variante) {
    forall c :: c in v.colores ==> ValidColor(c)
  }

  /** The schema's required fields and minimums. */
  predicate ValidProducto(p: Producto) {
    p.nombre != "" && p.descripcion != "" &&
    forall v :: v in p.variantes ==> ValidVariante(v)
  }

  function VarianteId(v: Variante): Id { v.id }
  function ColorId(c: Color): Id { c.id }
  function TallaId(t: Talla): Id { t.id }

  /** Sub-document ids are unique among siblings, as the database assigns
      them. */
  predicate IdsUnicos(p: Producto) {
    (forall a, b :: a in p.variantes && b in p.variantes && a.id == b.id ==> a == b) &&
    forall v :: v in p.variantes ==>
      (forall a, b :: a in v.colores && b in v.colores && a.id == b.id ==> a == b) &&
      forall c :: c in v.colores ==>
        forall a, b :: a in c.tallas && b in c.tallas && a.id == b.id ==> a == b
  }
}
