/** The per-product translation of a legacy catalog document (variants ->
    colours -> sizes, with product-level `corte` and `calidad`) into the
    current tree (variants -> qualities -> colours -> sizes). */
module Migration {
  import opened Common
  import opened Catalog

  // ---------------------------------------------------------------------
  // The legacy document as the migration reads it (costs, not prices)

  datatype TallaAntigua = TallaAntigua(talla: Option<string>, stock: int, costo: int)
  /** A colour's own stock in a legacy document: absent, stored as null, or
      a number. The migration tells null from absent in one branch. */
  datatype CampoAntiguo = Ausente | Nulo | Valor(n: int)

  datatype ColorAntiguo = ColorAntiguo(color: string, tallas: seq<TallaAntigua>, stock: CampoAntiguo, costo: Option<int>)

  /** The value a legacy field reads as once copied into the new schema:
      null and absent both leave the field unset. */
  function Leido(c: CampoAntiguo): (r: Option<int>)
    ensures r.Some? <==> c.Valor?
    ensures c.Valor? ==> r.value == c.n
  {
    if c.Valor? then Some(c.n) else None
  }
  datatype VarianteAntigua = VarianteAntigua(tipo: Option<string>, colores: seq<ColorAntiguo>)

  datatype ProductoAntiguo = ProductoAntiguo(
    id: Id,
    nombre: string,
    descripcion: string,
    categoria: Id,
    subcategoria: Id,
    calidad: Option<string>,
    corte: Option<string>,
    variantes: seq<VarianteAntigua>,
    imagenes: seq<string>,
    activo: bool,
    fechaCreacion: int)

  // ---------------------------------------------------------------------
  // Lookup tables

  /** Size codes and their full names. */
  const TALLAS: map<string, string> := map[
    "CH" := "Chica", "M" := "Mediana", "G" := "Grande", "EG" := "Extra Grande",
    "2EG" := "Doble Extra Grande", "3EG" := "Triple Extra Grande"]

  /** Colour names and their hex codes. */
  const COLORES_HEX: map<string, string> := map[
    "Negro" := "#000000", "Blanco" := "#FFFFFF", "Azul Rey" := "#003366",
    "Limón" := "#FDFF00", "Azul Marino" := "#000080", "N/A" := "#CCCCCC"]

  const HEX_POR_DEFECTO := "#CCCCCC"

  /** The full size name for a code, or the code itself when the table
      does not know it; no code gives no name. */
  function NombreTalla(codigo: Option<string>): (r: Option<string>)
    ensures codigo.None? ==> r.None?
    ensures codigo.Some? && codigo.value in TALLAS ==> r == Some(TALLAS[codigo.value])
    ensures codigo.Some? && codigo.value !in TALLAS ==> r == codigo
  {
    if codigo.None? then None
    else if codigo.value in TALLAS then Some(TALLAS[codigo.value])
    else codigo
  }

  /** The hex code for a colour name, `#CCCCCC` for an unknown one. */
  function CodigoHex(color: string): (r: string)
    ensures color in COLORES_HEX ==> r == COLORES_HEX[color]
    ensures color !in COLORES_HEX ==> r == HEX_POR_DEFECTO
    ensures r != ""
  {
    if color in COLORES_HEX && COLORES_HEX[color] != "" then COLORES_HEX[color] else HEX_POR_DEFECTO
  }

  // ---------------------------------------------------------------------
  // Per-level translations (`map((x, index) => ...)`)

  function ImagenesMigradas(imgs: seq<string>): (r: seq<Imagen>)
    ensures |r| == |imgs|
    ensures forall i :: 0 <= i < |imgs| ==> r[i].url == imgs[i] && r[i].orden == i + 1
    ensures forall i :: 0 <= i < |imgs| ==> (r[i].esPrincipal <==> i == 0)
  {
    seq(|imgs|, i requires 0 <= i < |imgs| => Imagen(imgs[i], i == 0, i + 1))
  }

  function TallaMigrada(t: TallaAntigua, i: nat): (r: Talla)
    ensures r.codigo == t.talla && r.talla == NombreTalla(t.talla)
    ensures r.stock == t.stock && r.costo == t.costo
    ensures r.orden == i + 1 && r.disponibleOnline
  {
    Talla(None, t.talla, NombreTalla(t.talla), t.stock, t.costo, i + 1, true)
  }

  function TallasMigradas(ts: seq<TallaAntigua>): (r: seq<Talla>)
    ensures |r| == |ts|
    ensures forall i :: 0 <= i < |ts| ==> r[i] == TallaMigrada(ts[i], i)
  {
    seq(|ts|, i requires 0 <= i < |ts| => TallaMigrada(ts[i], i))
  }

  /** A colour under a quality (legacy product with `corte` and `calidad`):
      its sizes when it has any; otherwise its own stock and cost, unless
      the stock is stored as null, in which case neither is copied. */
  function ColorConCalidad(c: ColorAntiguo, i: nat): (r: Color)
    ensures r.color == c.color && r.codigoHex == CodigoHex(c.color) && r.orden == i + 1 && r.disponibleOnline
    ensures |c.tallas| > 0 ==> r.tallas == TallasMigradas(c.tallas) && r.stock.None? && r.costo.None?
    ensures |c.tallas| == 0 && !c.stock.Nulo? ==> r.tallas == [] && r.stock == Leido(c.stock) && r.costo == c.costo
    ensures |c.tallas| == 0 && c.stock.Nulo? ==> r.tallas == [] && r.stock.None? && r.costo.None?
  {
    if |c.tallas| > 0 then Color(c.color, CodigoHex(c.color), true, TallasMigradas(c.tallas), None, None, None, i + 1)
    else if !c.stock.Nulo? then Color(c.color, CodigoHex(c.color), true, [], None, Leido(c.stock), c.costo, i + 1)
    else Color(c.color, CodigoHex(c.color), true, [], None, None, None, i + 1)
  }

  /** A colour of a legacy product without `corte`: its sizes when it has
      any, else its own stock and cost, whatever the stock holds. */
  function ColorSinCorte(c: ColorAntiguo, i: nat): (r: Color)
    ensures r.color == c.color && r.codigoHex == CodigoHex(c.color) && r.orden == i + 1 && r.disponibleOnline
    ensures |c.tallas| > 0 ==> r.tallas == TallasMigradas(c.tallas) && r.stock.None? && r.costo.None?
    ensures |c.tallas| == 0 ==> r.tallas == [] && r.stock == Leido(c.stock) && r.costo == c.costo
  {
    Color(c.color, CodigoHex(c.color), true,
          TallasMigradas(c.tallas), None,
          if |c.tallas| > 0 then None else Leido(c.stock),
          if |c.tallas| > 0 then None else c.costo,
          i + 1)
  }

  /** A colour without sizes whose stock is stored as null keeps its cost
      only in the branch without `corte`. */
  lemma StockNuloSegunRama(c: ColorAntiguo, i: nat)
    requires |c.tallas| == 0 && c.stock.Nulo?
    ensures ColorConCalidad(c, i).costo.None? && ColorConCalidad(c, i).stock.None?
    ensures ColorSinCorte(c, i).costo == c.costo && ColorSinCorte(c, i).stock.None?
  {
  }

  /** A colour of a legacy product with `corte` but no `calidad`: sizes are
      translated, but a colour's own stock and cost are not copied. */
  function ColorSinCalidad(c: ColorAntiguo, i: nat): (r: Color)
    ensures r.color == c.color && r.codigoHex == CodigoHex(c.color) && r.orden == i + 1 && r.disponibleOnline
    ensures r.tallas == TallasMigradas(c.tallas) && r.stock.None? && r.costo.None?
  {
    Color(c.color, CodigoHex(c.color), true, TallasMigradas(c.tallas), None, None, None, i + 1)
  }

  /** Which of the three colour translations applies. */
  datatype Rama = ConCalidad | SinCalidad | SinCorte

  function ColorMigrado(rama: Rama, c: ColorAntiguo, i: nat): Color {
    match rama
    case ConCalidad => ColorConCalidad(c, i)
    case SinCalidad => ColorSinCalidad(c, i)
    case SinCorte => ColorSinCorte(c, i)
  }

  function ColoresMigrados(rama: Rama, cs: seq<ColorAntiguo>): (r: seq<Color>)
    ensures |r| == |cs|
    ensures forall i :: 0 <= i < |cs| ==> r[i] == ColorMigrado(rama, cs[i], i)
  {
    seq(|cs|, i requires 0 <= i < |cs| => ColorMigrado(rama, cs[i], i))
  }

  // ---------------------------------------------------------------------
  // Variants as the migration builds them

  /** A variant object as the migration assembles it, before it is stored:
      it may hold `calidades` or, in the branches without a quality level,
      `colores` directly. */
  datatype VarianteConstruida = VarianteConstruida(
    variante: Option<string>,
    disponibleOnline: bool,
    orden: int,
    calidades: seq<Calidad>,
    colores: seq<Color>)

  function RamaDe(p: ProductoAntiguo): Rama {
    if p.corte.None? then SinCorte
    else if p.calidad.None? then SinCalidad
    else ConCalidad
  }

  /** The variant's name: its type, else the product's `corte`, or
      "Estándar" for a product without `corte`. */
  function NombreVariante(p: ProductoAntiguo, v: VarianteAntigua): (r: string)
    ensures Truthy(v.tipo) ==> r == v.tipo.value
    ensures !Truthy(v.tipo) && p.corte.Some? ==> r == p.corte.value
    ensures !Truthy(v.tipo) && p.corte.None? ==> r == "Estándar"
  {
    if p.corte.Some? then OrStr(v.tipo, p.corte.value) else OrStr(v.tipo, "Estándar")
  }

  function VarianteMigrada(p: ProductoAntiguo, v: VarianteAntigua, i: nat): (r: VarianteConstruida)
    ensures r.orden == i + 1 && r.disponibleOnline && r.variante == Some(NombreVariante(p, v))
    ensures RamaDe(p) == ConCalidad ==>
      r.colores == [] &&
      r.calidades == [Calidad(p.calidad, true, ColoresMigrados(ConCalidad, v.colores), 1)]
    ensures RamaDe(p) != ConCalidad ==>
      r.calidades == [] && r.colores == ColoresMigrados(RamaDe(p), v.colores)
  {
    var colores := ColoresMigrados(RamaDe(p), v.colores);
    if RamaDe(p) == ConCalidad
    then VarianteConstruida(Some(NombreVariante(p, v)), true, i + 1, [Calidad(p.calidad, true, colores, 1)], [])
    else VarianteConstruida(Some(NombreVariante(p, v)), true, i + 1, [], colores)
  }

  function VariantesMigradas(p: ProductoAntiguo): (r: seq<VarianteConstruida>)
    ensures |r| == |p.variantes|
    ensures forall i :: 0 <= i < |p.variantes| ==> r[i] == VarianteMigrada(p, p.variantes[i], i)
  {
    seq(|p.variantes|, i requires 0 <= i < |p.variantes| => VarianteMigrada(p, p.variantes[i], i))
  }

  /** The generic variant of a product with neither `corte` nor variants:
      one "N/A" colour with no sizes and zero stock and cost (the legacy
      document has no root-level stock or cost). */
  const VARIANTE_GENERICA: VarianteConstruida :=
    VarianteConstruida(Some("General"), true, 1, [],
      [Color("N/A", HEX_POR_DEFECTO, true, [], None, Some(0), Some(0), 1)])

  /** The variants the migration assembles for a legacy product. */
  function Construidas(p: ProductoAntiguo): (r: seq<VarianteConstruida>)
    ensures p.corte.Some? || |p.variantes| > 0 ==> r == VariantesMigradas(p)
    ensures p.corte.None? && |p.variantes| == 0 ==> r == [VARIANTE_GENERICA]
  {
    var vs := VariantesMigradas(p);
    if p.corte.None? && |vs| == 0 then [VARIANTE_GENERICA] else vs
  }

  // ---------------------------------------------------------------------
  // Storing: as written, and corrected

  /** What the product schema keeps of an assembled variant: it declares
      `calidades` but no `colores`, so colours placed directly on the
      variant are discarded. */
  function AlEsquema(v: VarianteConstruida): (r: Variante)
    ensures r.variante == v.variante && r.orden == v.orden && r.calidades == v.calidades
  {
    Variante(v.variante, v.disponibleOnline, v.calidades, v.orden)
  }

  function AlEsquemaTodas(vs: seq<VarianteConstruida>): (r: seq<Variante>)
    ensures |r| == |vs| && forall i :: 0 <= i < |vs| ==> r[i] == AlEsquema(vs[i])
  {
    seq(|vs|, i requires 0 <= i < |vs| => AlEsquema(vs[i]))
  }

  /** Colours placed directly on a variant go into one pass-through
      quality, which is what a product without a quality level holds. */
  function AlEsquemaCorregido(calidad: Option<string>, v: VarianteConstruida): (r: Variante)
    ensures r.variante == v.variante && r.orden == v.orden
    ensures |v.colores| == 0 ==> r.calidades == v.calidades
    ensures |v.colores| > 0 ==> r.calidades == [Calidad(calidad, true, v.colores, 1)]
  {
    if |v.colores| == 0 then Variante(v.variante, v.disponibleOnline, v.calidades, v.orden)
    else Variante(v.variante, v.disponibleOnline, [Calidad(calidad, true, v.colores, 1)], v.orden)
  }

  function AlEsquemaCorregidoTodas(calidad: Option<string>, vs: seq<VarianteConstruida>): (r: seq<Variante>)
    ensures |r| == |vs| && forall i :: 0 <= i < |vs| ==> r[i] == AlEsquemaCorregido(calidad, vs[i])
  {
    seq(|vs|, i requires 0 <= i < |vs| => AlEsquemaCorregido(calidad, vs[i]))
  }

  /** The configuration flags: a level is in use when its legacy field is
      defined. */
  function ConfigDe(p: ProductoAntiguo): (r: ConfigVariantes)
    ensures r.usaVariante <==> p.corte.Some?
    ensures r.usaCalidad <==> p.calidad.Some?
  {
    ConfigVariantes(p.corte.Some?, p.calidad.Some?)
  }

  function ProductoCon(p: ProductoAntiguo, variantes: seq<Variante>, now: int): Producto {
    Producto(p.nombre, p.descripcion, p.categoria, p.subcategoria, ConfigDe(p), variantes,
             ImagenesMigradas(p.imagenes), p.activo, p.fechaCreacion, now)
  }

  /** The stored product as the migration writes it. */
  function MigrarTalCual(p: ProductoAntiguo, now: int): Producto {
    ProductoCon(p, AlEsquemaTodas(Construidas(p)), now)
  }

  /** The stored product with the colours of quality-less variants kept. */
  function Migrar(p: ProductoAntiguo, now: int): Producto {
    ProductoCon(p, AlEsquemaCorregidoTodas(p.calidad, Construidas(p)), now)
  }

  // ---------------------------------------------------------------------
  // Properties

  /** As written, a product with `corte` but no `calidad` loses every
      colour: its variant ends up with no quality and so no colour. */
  lemma ColoresPerdidos()
    ensures var p := ProductoAntiguo(0, "Playera", "Algodón", 0, 0, None, Some("Unisex"),
                                     [VarianteAntigua(None, [ColorAntiguo("Negro", [], Valor(3), Some(100))])],
                                     [], true, 0);
      |p.variantes[0].colores| == 1 &&
      |MigrarTalCual(p, 0).variantes| == 1 && MigrarTalCual(p, 0).variantes[0].calidades == []
  {
    var p := ProductoAntiguo(0, "Playera", "Algodón", 0, 0, None, Some("Unisex"),
                             [VarianteAntigua(None, [ColorAntiguo("Negro", [], Valor(3), Some(100))])],
                             [], true, 0);
    assert Construidas(p)[0].calidades == [];
  }

  /** All colours of a variant, across its qualities, in order. */
  function ColoresDe(v: Variante): seq<Color> {
    ColoresDeCalidades(v.calidades)
  }

  function ColoresDeCalidades(qs: seq<Calidad>): seq<Color> {
    if |qs| == 0 then [] else qs[0].colores + ColoresDeCalidades(qs[1..])
  }

  /** Corrected, every legacy variant's colours survive, in order, as the
      colours of the new variant at the same position; a product without
      `corte` or variants gets the generic variant. */
  lemma ColoresConservados(p: ProductoAntiguo, now: int)
    ensures p.corte.Some? || |p.variantes| > 0 ==>
      |Migrar(p, now).variantes| == |p.variantes| &&
      forall i :: 0 <= i < |p.variantes| ==>
        ColoresDe(Migrar(p, now).variantes[i]) == ColoresMigrados(RamaDe(p), p.variantes[i].colores)
    ensures p.corte.None? && |p.variantes| == 0 ==>
      |Migrar(p, now).variantes| == 1 && ColoresDe(Migrar(p, now).variantes[0]) == VARIANTE_GENERICA.colores
  {
    var vs := Construidas(p);
    forall i | 0 <= i < |vs|
      ensures ColoresDe(AlEsquemaCorregido(p.calidad, vs[i])) == vs[i].colores + ColoresDeCalidades(vs[i].calidades)
    {
      var v := vs[i];
      if |v.colores| > 0 {
        assert ColoresDeCalidades([Calidad(p.calidad, true, v.colores, 1)]) == v.colores + ColoresDeCalidades([]);
      }
    }
    if p.corte.Some? || |p.variantes| > 0 {
      forall i | 0 <= i < |p.variantes|
        ensures ColoresDe(Migrar(p, now).variantes[i]) == ColoresMigrados(RamaDe(p), p.variantes[i].colores)
      {
        var v := vs[i];
        if RamaDe(p) == ConCalidad {
          assert ColoresDeCalidades(v.calidades) == ColoresMigrados(ConCalidad, p.variantes[i].colores) + ColoresDeCalidades([]);
        }
      }
    } else {
      assert ColoresDeCalidades([Calidad(p.calidad, true, VARIANTE_GENERICA.colores, 1)]) ==
        VARIANTE_GENERICA.colores + ColoresDeCalidades([]);
    }
  }

  /** Every migrated size keeps the legacy size's stock and cost. */
  lemma StockYCostoConservados(p: ProductoAntiguo, now: int, i: nat, j: nat, k: nat)
    requires i < |p.variantes| && j < |p.variantes[i].colores| && k < |p.variantes[i].colores[j].tallas|
    ensures var t := p.variantes[i].colores[j].tallas[k];
      var c := ColoresDe(Migrar(p, now).variantes[i])[j];
      c.tallas[k].stock == t.stock && c.tallas[k].costo == t.costo && c.tallas[k].orden == k + 1
  {
    ColoresConservados(p, now);
  }

  /** Illustration: the colour table's default and the size table's fallback. */
  lemma Tablas()
    ensures CodigoHex("Rosa") == "#CCCCCC" && CodigoHex("Negro") == "#000000"
    ensures NombreTalla(Some("M")) == Some("Mediana") && NombreTalla(Some("XL")) == Some("XL")
  {
    assert "Rosa" !in COLORES_HEX;
    assert "XL" !in TALLAS;
  }

  predicate PorIndice(os: seq<int>) {
    forall i :: 0 <= i < |os| ==> os[i] == i + 1
  }

  lemma PorIndiceDistintos(os: seq<int>)
    requires PorIndice(os)
    ensures OrdenesDistintas(os)
  {
  }

  lemma OrdenesTallas(ts: seq<TallaAntigua>)
    ensures OrdenesDistintas(MapSeq(TallasMigradas(ts), OrdenTalla))
  {
    PorIndiceDistintos(MapSeq(TallasMigradas(ts), OrdenTalla));
  }

  lemma OrdenesColor(c: Color)
    requires c.tallas == [] || exists ts :: c.tallas == TallasMigradas(ts)
    ensures OrdenesDistintas(MapSeq(c.tallas, OrdenTalla))
  {
    if c.tallas != [] {
      var ts :| c.tallas == TallasMigradas(ts);
      OrdenesTallas(ts);
    }
  }

  lemma OrdenesColores(rama: Rama, cs: seq<ColorAntiguo>)
    ensures OrdenesDistintas(MapSeq(ColoresMigrados(rama, cs), OrdenColor))
    ensures forall c :: c in ColoresMigrados(rama, cs) ==> OrdenesDistintas(MapSeq(c.tallas, OrdenTalla))
  {
    PorIndiceDistintos(MapSeq(ColoresMigrados(rama, cs), OrdenColor));
    forall c | c in ColoresMigrados(rama, cs)
      ensures OrdenesDistintas(MapSeq(c.tallas, OrdenTalla))
    {
      var i :| 0 <= i < |cs| && ColoresMigrados(rama, cs)[i] == c;
      var o := cs[i];
      OrdenesColor(c);
    }
  }

  /** Display orders are `index + 1` at every level, so they are distinct
      among siblings. */
  lemma OrdenesUnicasTrasMigrar(p: ProductoAntiguo, now: int)
    ensures OrdenesUnicas(Migrar(p, now))
  {
    var m := Migrar(p, now);
    var vs := Construidas(p);
    PorIndiceDistintos(MapSeq(m.variantes, OrdenVariante));
    forall v | v in m.variantes
      ensures OrdenesDistintas(MapSeq(v.calidades, OrdenCalidad)) &&
        forall q :: q in v.calidades ==>
          OrdenesDistintas(MapSeq(q.colores, OrdenColor)) &&
          forall c :: c in q.colores ==> OrdenesDistintas(MapSeq(c.tallas, OrdenTalla))
    {
      var i :| 0 <= i < |vs| && m.variantes[i] == v;
      if p.corte.None? && |p.variantes| == 0 {
        OrdenesColor(VARIANTE_GENERICA.colores[0]);
      } else {
        OrdenesColores(RamaDe(p), p.variantes[i].colores);
      }
    }
  }

  /** A product without `corte` but with several legacy variants gets
      several variants although its configuration says the level is not in
      use; otherwise the one-child rule holds. */
  lemma ConfigRespetadaSii(p: ProductoAntiguo, now: int)
    ensures RespetaConfig(Migrar(p, now)) <==> p.corte.Some? || |p.variantes| <= 1
  {
    var m := Migrar(p, now);
    forall v | v in m.variantes ensures |v.calidades| <= 1 {
      var i :| 0 <= i < |m.variantes| && m.variantes[i] == v;
    }
  }

  // ---------------------------------------------------------------------
  // The migration loop

  /** The per-product body of the migration loop: the configuration, then
      the variants assigned branch by branch, the generic variant as a
      last resort, and the stored form. */
  method MigrarProducto(p: ProductoAntiguo, now: int) returns (nuevo: Producto)
    ensures nuevo == Migrar(p, now)
  {
    var config := ConfigVariantes(p.corte != None, p.calidad != None);
    var variantes: seq<VarianteConstruida>;
    if config.usaVariante {
      variantes := VariantesMigradas(p);
    } else {
      variantes := VariantesMigradas(p);
      if |variantes| == 0 {
        variantes := [VARIANTE_GENERICA];
      }
    }
    nuevo := Producto(p.nombre, p.descripcion, p.categoria, p.subcategoria, config,
                      AlEsquemaCorregidoTodas(p.calidad, variantes),
                      ImagenesMigradas(p.imagenes), p.activo, p.fechaCreacion, now);
  }

  /** Position `k` of the first `n` documents is the last one with its id. */
  predicate UltimaConSuId(antiguos: seq<ProductoAntiguo>, n: nat, k: nat)
    requires n <= |antiguos|
  {
    k < n && forall j :: k < j < n ==> antiguos[j].id != antiguos[k].id
  }

  /** Some of the first `n` documents has id `id`. */
  predicate Migrado(antiguos: seq<ProductoAntiguo>, n: nat, id: Id)
    requires n <= |antiguos|
  {
    exists k :: 0 <= k < n && antiguos[k].id == id
  }

  /** One more document migrated adds exactly its id. */
  lemma MigradoPaso(antiguos: seq<ProductoAntiguo>, n: nat, id: Id)
    requires n < |antiguos|
    ensures Migrado(antiguos, n + 1, id) <==> Migrado(antiguos, n, id) || id == antiguos[n].id
  {
    if Migrado(antiguos, n + 1, id) && id != antiguos[n].id {
      var k :| 0 <= k < n + 1 && antiguos[k].id == id;
      assert k < n;
    }
    if id == antiguos[n].id {
      assert antiguos[n].id == id;
    }
  }

  /** After one more document, the last one per id is either that document
      or an earlier last one with another id. */
  lemma UltimaPaso(antiguos: seq<ProductoAntiguo>, n: nat, k: nat)
    requires n < |antiguos|
    ensures UltimaConSuId(antiguos, n + 1, k) ==>
      k == n || (UltimaConSuId(antiguos, n, k) && antiguos[k].id != antiguos[n].id)
  {
  }

  /** Migrates every legacy product in turn, upserting by id: each id ends
      up holding the migration of the last legacy document with that id,
      and documents of other ids are left alone. */
  method MigrarProductos(antiguos: seq<ProductoAntiguo>, destino: map<Id, Producto>, now: int)
    returns (resultado: map<Id, Producto>)
    ensures forall id :: id in resultado <==> id in destino || Migrado(antiguos, |antiguos|, id)
    ensures forall k: nat :: UltimaConSuId(antiguos, |antiguos|, k) ==> antiguos[k].id in resultado && resultado[antiguos[k].id] == Migrar(antiguos[k], now)
    ensures forall id :: id in destino && !Migrado(antiguos, |antiguos|, id) ==> id in resultado && resultado[id] == destino[id]
  {
    resultado := destino;
    var n := 0;
    while n < |antiguos|
      invariant 0 <= n <= |antiguos|
      invariant forall id :: id in resultado <==> id in destino || Migrado(antiguos, n, id)
      invariant forall k: nat :: UltimaConSuId(antiguos, n, k) ==> antiguos[k].id in resultado && resultado[antiguos[k].id] == Migrar(antiguos[k], now)
      invariant forall id :: id in destino && !Migrado(antiguos, n, id) ==> id in resultado && resultado[id] == destino[id]
    {
      var nuevo := MigrarProducto(antiguos[n], now);
      resultado := resultado[antiguos[n].id := nuevo];
      forall id
        ensures Migrado(antiguos, n + 1, id) <==> Migrado(antiguos, n, id) || id == antiguos[n].id
      {
        MigradoPaso(antiguos, n, id);
      }
      forall k: nat
        ensures UltimaConSuId(antiguos, n + 1, k) ==> k == n || (UltimaConSuId(antiguos, n, k) && antiguos[k].id != antiguos[n].id)
      {
        UltimaPaso(antiguos, n, k);
      }
      n := n + 1;
    }
  }
}
