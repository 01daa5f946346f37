/** Production-cost parameters: the checks a new parameter must pass, the
    field-by-field merge of an update, and the store they are written to. */
module CostParameters {
  import opened Common

  const PIEZA := "pieza"
  const CM_CUADRADO := "cm_cuadrado"

  /** The units the schema accepts. */
  predicate UnidadValida(u: string) {
    u == PIEZA || u == CM_CUADRADO
  }

  /** A request value for a number: a number, or something that is not one. */
  datatype Numero = Num(n: int) | NoNumerico

  datatype SolicitudCosto = SolicitudCosto(
    nombre: Option<string>,
    descripcion: Option<string>,
    unidad: Option<string>,
    costo: Option<Numero>,
    anchoPlancha: Option<int>,
    largoPlancha: Option<int>,
    subcategoriasAplica: Option<seq<Id>>)

  datatype CostoElaboracion = CostoElaboracion(
    nombre: string,
    descripcion: Option<string>,
    unidad: string,
    costo: int,
    anchoPlancha: Option<int>,
    largoPlancha: Option<int>,
    subcategoriasAplica: seq<Id>)

  datatype Rechazo =
    | CamposObligatorios
    | CostoInvalido
    | SubcategoriasInexistentes(idsInvalidos: seq<Id>)
    | AlgunaSubcategoriaNoExiste
    | FaltanDimensiones
    | NoEncontrado
    | ErrorInterno

  // ---------------------------------------------------------------------
  // The subcategory check

  predicate SinRepetidos(ids: seq<Id>) {
    forall i, j :: 0 <= i < j < |ids| ==> ids[i] != ids[j]
  }

  /** The distinct requested ids that exist (what the `$in` query returns). */
  function Encontradas(ids: seq<Id>, existentes: set<Id>): set<Id> {
    set x | x in ids && x in existentes
  }

  /** The check fails when fewer documents are found than ids were sent. */
  predicate FaltanSubcategorias(ids: seq<Id>, existentes: set<Id>) {
    |Encontradas(ids, existentes)| != |ids|
  }

  function EsDesconocida(existentes: set<Id>): Id -> bool {
    x => x !in existentes
  }

  /** The ids reported as invalid: the requested ids that do not exist, in
      request order. */
  function IdsInvalidos(ids: seq<Id>, existentes: set<Id>): (r: seq<Id>)
    ensures forall x :: x in r <==> x in ids && x !in existentes
  {
    Keep(ids, EsDesconocida(existentes))
  }

  /** The distinct ids of a request. */
  function Elementos(ids: seq<Id>): set<Id> {
    set x | x in ids
  }

  lemma CardinalSubconjunto(a: set<Id>, b: set<Id>)
    requires a <= b
    ensures |a| <= |b|
    decreases a
  {
    if a != {} {
      var x :| x in a;
      CardinalSubconjunto(a - {x}, b - {x});
    }
  }

  lemma {:induction false} CardinalElementos(ids: seq<Id>)
    ensures |Elementos(ids)| <= |ids|
    ensures SinRepetidos(ids) ==> |Elementos(ids)| == |ids|
  {
    if |ids| == 0 {
      assert Elementos(ids) == {};
    } else {
      var resto := ids[1..];
      CardinalElementos(resto);
      assert Elementos(ids) == {ids[0]} + Elementos(resto);
      if ids[0] in resto {
        assert Elementos(ids) == Elementos(resto);
        assert !SinRepetidos(ids) by {
          var j :| 0 <= j < |resto| && resto[j] == ids[0];
          assert ids[j + 1] == ids[0];
        }
      } else {
        assert |Elementos(ids)| == |Elementos(resto)| + 1;
        if SinRepetidos(ids) {
          assert SinRepetidos(resto) by {
            forall i, j | 0 <= i < j < |resto| ensures resto[i] != resto[j] {
              assert resto[i] == ids[i + 1] && resto[j] == ids[j + 1];
            }
          }
          assert |Elementos(resto)| == |resto|;
        }
      }
    }
  }

  /** With no repeated ids, the check fails exactly when some id does not
      exist. */
  lemma FaltanSiiAlgunaDesconocida(ids: seq<Id>, existentes: set<Id>)
    requires SinRepetidos(ids)
    ensures FaltanSubcategorias(ids, existentes) <==> exists i :: 0 <= i < |ids| && ids[i] !in existentes
  {
    CardinalElementos(ids);
    var todas := Elementos(ids);
    if exists i :: 0 <= i < |ids| && ids[i] !in existentes {
      var i :| 0 <= i < |ids| && ids[i] !in existentes;
      CardinalSubconjunto(Encontradas(ids, existentes), todas - {ids[i]});
      assert |todas - {ids[i]}| == |todas| - 1;
    } else {
      assert Encontradas(ids, existentes) == todas;
    }
  }

  /** A repeated id fails the check although every id exists, and no id is
      reported as invalid. */
  lemma RepetidaRechazada(a: Id)
    ensures FaltanSubcategorias([a, a], {a}) && IdsInvalidos([a, a], {a}) == []
  {
    assert Encontradas([a, a], {a}) == {a};
    var p := EsDesconocida({a});
    assert !p(a);
    assert [a, a][1..] == [a] && [a][1..] == [];
    assert Keep([a, a], p) == Keep([a], p) == Keep([], p) == [];
  }

  // ---------------------------------------------------------------------
  // Creation

  predicate FaltanCampos(s: SolicitudCosto) {
    !Truthy(s.nombre) || !Truthy(s.unidad) || s.costo.None? || s.subcategoriasAplica.None?
  }

  predicate CostoNoValido(c: Numero) {
    c.NoNumerico? || c.n < 0
  }

  predicate SinDimensiones(s: SolicitudCosto) {
    s.unidad == Some(CM_CUADRADO) && (!TruthyNum(s.anchoPlancha) || !TruthyNum(s.largoPlancha))
  }

  /** The document built from a request that passed every check: the
      plancha dimensions are kept only for the `cm_cuadrado` unit. */
  function NuevoCosto(s: SolicitudCosto): (c: CostoElaboracion)
    requires !FaltanCampos(s) && !CostoNoValido(s.costo.value)
    ensures c.nombre == s.nombre.value && c.unidad == s.unidad.value && c.costo == s.costo.value.n
    ensures c.descripcion == s.descripcion && c.subcategoriasAplica == s.subcategoriasAplica.value
    ensures s.unidad == Some(CM_CUADRADO) ==> c.anchoPlancha == s.anchoPlancha && c.largoPlancha == s.largoPlancha
    ensures s.unidad != Some(CM_CUADRADO) ==> c.anchoPlancha.None? && c.largoPlancha.None?
  {
    var cm := s.unidad == Some(CM_CUADRADO);
    CostoElaboracion(s.nombre.value, s.descripcion, s.unidad.value, s.costo.value.n,
                     if cm then s.anchoPlancha else None,
                     if cm then s.largoPlancha else None,
                     s.subcategoriasAplica.value)
  }

  /** The first two checks pass: every field is given and the cost is a
      non-negative number. */
  predicate CamposYCostoValidos(s: SolicitudCosto) {
    !FaltanCampos(s) && !CostoNoValido(s.costo.value)
  }

  /** Every check of the controller passes; only the schema's unit enum
      is left to the save. */
  predicate PasaComprobaciones(s: SolicitudCosto, existentes: set<Id>) {
    !FaltanCampos(s) && !CostoNoValido(s.costo.value) &&
    !FaltanSubcategorias(s.subcategoriasAplica.value, existentes) && !SinDimensiones(s)
  }

  /** The outcome of a creation request, with the subcategory check run
      against the subcategory collection. A unit outside the schema's enum
      fails when the document is saved. */
  function Creacion(s: SolicitudCosto, existentes: set<Id>): (r: Result<CostoElaboracion, Rechazo>)
    ensures FaltanCampos(s) ==> r == Err(CamposObligatorios)
    ensures !FaltanCampos(s) && CostoNoValido(s.costo.value) ==> r == Err(CostoInvalido)
    ensures CamposYCostoValidos(s) && FaltanSubcategorias(s.subcategoriasAplica.value, existentes) ==>
      r == Err(SubcategoriasInexistentes(IdsInvalidos(s.subcategoriasAplica.value, existentes)))
    ensures CamposYCostoValidos(s) && !FaltanSubcategorias(s.subcategoriasAplica.value, existentes) && SinDimensiones(s) ==>
      r == Err(FaltanDimensiones)
    ensures PasaComprobaciones(s, existentes) && !UnidadValida(s.unidad.value) ==> r == Err(ErrorInterno)
    ensures r.Ok? <==>
      !FaltanCampos(s) && !CostoNoValido(s.costo.value) &&
      !FaltanSubcategorias(s.subcategoriasAplica.value, existentes) &&
      !SinDimensiones(s) && UnidadValida(s.unidad.value)
    ensures r.Ok? ==> r.value == NuevoCosto(s)
  {
    if FaltanCampos(s) then Err(CamposObligatorios)
    else if CostoNoValido(s.costo.value) then Err(CostoInvalido)
    else if FaltanSubcategorias(s.subcategoriasAplica.value, existentes) then
      Err(SubcategoriasInexistentes(IdsInvalidos(s.subcategoriasAplica.value, existentes)))
    else if SinDimensiones(s) then Err(FaltanDimensiones)
    else if !UnidadValida(s.unidad.value) then Err(ErrorInterno)
    else Ok(NuevoCosto(s))
  }

  /** As written, the subcategory lookup is made on the module object that
      holds both models rather than on the subcategory model, so it throws
      and the request ends in a server error. */
  function CreacionTalCual(s: SolicitudCosto, existentes: set<Id>): (r: Result<CostoElaboracion, Rechazo>)
    ensures FaltanCampos(s) ==> r == Err(CamposObligatorios)
    ensures !FaltanCampos(s) && CostoNoValido(s.costo.value) ==> r == Err(CostoInvalido)
  {
    if FaltanCampos(s) then Err(CamposObligatorios)
    else if CostoNoValido(s.costo.value) then Err(CostoInvalido)
    else Err(ErrorInterno)
  }

  /** As written, no request creates a parameter. */
  lemma CreacionTalCualNuncaCrea(s: SolicitudCosto, existentes: set<Id>)
    ensures CreacionTalCual(s, existentes).Err?
    ensures !FaltanCampos(s) && !CostoNoValido(s.costo.value) ==>
      CreacionTalCual(s, existentes) == Err(ErrorInterno)
  {
  }

  /** A request with every field right is created when the lookup goes to
      the subcategory collection. */
  lemma CreacionCorregidaCrea(s: SolicitudCosto, existentes: set<Id>)
    requires !FaltanCampos(s) && !CostoNoValido(s.costo.value) && !SinDimensiones(s)
    requires UnidadValida(s.unidad.value) && SinRepetidos(s.subcategoriasAplica.value)
    requires forall x :: x in s.subcategoriasAplica.value ==> x in existentes
    ensures Creacion(s, existentes) == Ok(NuevoCosto(s))
  {
    FaltanSiiAlgunaDesconocida(s.subcategoriasAplica.value, existentes);
  }

  /** The dimensions are stored exactly for the `cm_cuadrado` unit. */
  predicate DimensionesSoloConCm(c: CostoElaboracion) {
    (c.anchoPlancha.Some? || c.largoPlancha.Some?) ==> c.unidad == CM_CUADRADO
  }

  predicate CmConDimensiones(c: CostoElaboracion) {
    c.unidad == CM_CUADRADO ==> TruthyNum(c.anchoPlancha) && TruthyNum(c.largoPlancha)
  }

  lemma CreadoConDimensionesCorrectas(s: SolicitudCosto, existentes: set<Id>)
    requires Creacion(s, existentes).Ok?
    ensures DimensionesSoloConCm(Creacion(s, existentes).value)
    ensures CmConDimensiones(Creacion(s, existentes).value)
    ensures Creacion(s, existentes).value.costo >= 0
  {
  }

  // ---------------------------------------------------------------------
  // Update

  /** The update object: a falsy name or unit keeps the stored one, while
      a description or cost keeps the stored one only when absent. */
  datatype DatosActualizacion = DatosActualizacion(
    nombre: string,
    descripcion: Option<string>,
    unidad: string,
    costo: Numero,
    anchoPlancha: Option<int>,
    largoPlancha: Option<int>,
    subcategoriasAplica: seq<Id>)

  /** `a || b` for optional numbers. */
  function OrOpcion(a: Option<int>, b: Option<int>): (r: Option<int>)
    ensures TruthyNum(a) ==> r == a
    ensures !TruthyNum(a) ==> r == b
  {
    if TruthyNum(a) then a else b
  }

  function Datos(s: SolicitudCosto, viejo: CostoElaboracion): (d: DatosActualizacion)
    ensures d.nombre == OrStr(s.nombre, viejo.nombre) && d.unidad == OrStr(s.unidad, viejo.unidad)
    ensures d.descripcion == (if s.descripcion.Some? then s.descripcion else viejo.descripcion)
    ensures d.costo == (if s.costo.Some? then s.costo.value else Num(viejo.costo))
    ensures d.subcategoriasAplica == (if s.subcategoriasAplica.Some? then s.subcategoriasAplica.value else viejo.subcategoriasAplica)
    ensures s.unidad == Some(CM_CUADRADO) ==>
      d.anchoPlancha == OrOpcion(s.anchoPlancha, viejo.anchoPlancha) &&
      d.largoPlancha == OrOpcion(s.largoPlancha, viejo.largoPlancha)
    ensures s.unidad != Some(CM_CUADRADO) ==> d.anchoPlancha.None? && d.largoPlancha.None?
  {
    var base := DatosActualizacion(
      OrStr(s.nombre, viejo.nombre),
      if s.descripcion.Some? then s.descripcion else viejo.descripcion,
      OrStr(s.unidad, viejo.unidad),
      if s.costo.Some? then s.costo.value else Num(viejo.costo),
      None, None,
      if s.subcategoriasAplica.Some? then s.subcategoriasAplica.value else viejo.subcategoriasAplica);
    if s.unidad == Some(CM_CUADRADO)
    then base.(anchoPlancha := OrOpcion(s.anchoPlancha, viejo.anchoPlancha),
               largoPlancha := OrOpcion(s.largoPlancha, viejo.largoPlancha))
    else base
  }

  /** The update validators reject a cost that is not a number and a unit
      outside the enum. */
  function Aplicar(d: DatosActualizacion): (r: Result<CostoElaboracion, Rechazo>)
    ensures r.Ok? <==> d.costo.Num? && UnidadValida(d.unidad)
    ensures r.Err? ==> r.error == ErrorInterno
    ensures r.Ok? ==>
      r.value == CostoElaboracion(d.nombre, d.descripcion, d.unidad, d.costo.n,
                                  d.anchoPlancha, d.largoPlancha, d.subcategoriasAplica)
  {
    if d.costo.NoNumerico? || !UnidadValida(d.unidad) then Err(ErrorInterno)
    else Ok(CostoElaboracion(d.nombre, d.descripcion, d.unidad, d.costo.n,
                             d.anchoPlancha, d.largoPlancha, d.subcategoriasAplica))
  }

  /** The outcome of an update of the stored `viejo` (absent for an unknown
      id), with the subcategory check run against the subcategory
      collection. */
  function Actualizacion(s: SolicitudCosto, viejo: Option<CostoElaboracion>, existentes: set<Id>)
    : (r: Result<CostoElaboracion, Rechazo>)
    ensures viejo.None? ==> r == Err(NoEncontrado)
    ensures viejo.Some? && s.subcategoriasAplica.Some? && FaltanSubcategorias(s.subcategoriasAplica.value, existentes) ==>
      r == Err(AlgunaSubcategoriaNoExiste)
    ensures viejo.Some? && !(s.subcategoriasAplica.Some? && FaltanSubcategorias(s.subcategoriasAplica.value, existentes)) ==>
      r == Aplicar(Datos(s, viejo.value))
    ensures r.Ok? ==> viejo.Some? && r == Aplicar(Datos(s, viejo.value))
  {
    if viejo.None? then Err(NoEncontrado)
    else if s.subcategoriasAplica.Some? && FaltanSubcategorias(s.subcategoriasAplica.value, existentes) then
      Err(AlgunaSubcategoriaNoExiste)
    else Aplicar(Datos(s, viejo.value))
  }

  /** As written, an update that sends subcategories throws on the same
      misdirected lookup; one that sends none proceeds. */
  function ActualizacionTalCual(s: SolicitudCosto, viejo: Option<CostoElaboracion>, existentes: set<Id>)
    : (r: Result<CostoElaboracion, Rechazo>)
    ensures viejo.None? ==> r == Err(NoEncontrado)
    ensures viejo.Some? && s.subcategoriasAplica.None? ==> r == Actualizacion(s, viejo, existentes)
  {
    if viejo.None? then Err(NoEncontrado)
    else if s.subcategoriasAplica.Some? then Err(ErrorInterno)
    else Aplicar(Datos(s, viejo.value))
  }

  lemma ActualizacionTalCualConSubcategorias(s: SolicitudCosto, viejo: CostoElaboracion, existentes: set<Id>)
    requires s.subcategoriasAplica.Some?
    ensures ActualizacionTalCual(s, Some(viejo), existentes) == Err(ErrorInterno)
  {
  }

  /** Zero is a defined cost, so an update can set the cost to 0, while an
      empty name keeps the stored name. */
  lemma CostoCeroYNombreVacio(s: SolicitudCosto, viejo: CostoElaboracion, existentes: set<Id>)
    requires s.costo == Some(Num(0)) && s.nombre == Some("") && s.subcategoriasAplica.None?
    requires UnidadValida(OrStr(s.unidad, viejo.unidad))
    ensures Actualizacion(s, Some(viejo), existentes).Ok?
    ensures Actualizacion(s, Some(viejo), existentes).value.costo == 0
    ensures Actualizacion(s, Some(viejo), existentes).value.nombre == viejo.nombre
  {
  }

  /** Unlike creation, an update accepts a negative cost. */
  lemma ActualizacionAceptaCostoNegativo(s: SolicitudCosto, viejo: CostoElaboracion, existentes: set<Id>)
    requires s.costo == Some(Num(-5)) && s.subcategoriasAplica.None? && UnidadValida(OrStr(s.unidad, viejo.unidad))
    ensures Actualizacion(s, Some(viejo), existentes).Ok?
    ensures Actualizacion(s, Some(viejo), existentes).value.costo == -5
  {
  }

  /** An update preserves "dimensions only for `cm_cuadrado`". */
  lemma ActualizacionConservaDimensionesSoloConCm(s: SolicitudCosto, viejo: CostoElaboracion, existentes: set<Id>)
    requires DimensionesSoloConCm(viejo)
    requires Actualizacion(s, Some(viejo), existentes).Ok?
    ensures DimensionesSoloConCm(Actualizacion(s, Some(viejo), existentes).value)
  {
  }

  /** The dimensions are cleared when the request omits the unit, even if
      the stored unit is `cm_cuadrado`, which leaves a `cm_cuadrado`
      parameter without dimensions. */
  lemma UnidadOmitidaBorraDimensiones(s: SolicitudCosto, viejo: CostoElaboracion, existentes: set<Id>)
    requires viejo.unidad == CM_CUADRADO && s.unidad.None? && s.subcategoriasAplica.None?
    requires s.costo.None? || s.costo.value.Num?
    ensures Actualizacion(s, Some(viejo), existentes).Ok?
    ensures var c := Actualizacion(s, Some(viejo), existentes).value;
      c.unidad == CM_CUADRADO && c.anchoPlancha.None? && c.largoPlancha.None? && !CmConDimensiones(c)
  {
  }

  // ---------------------------------------------------------------------
  // The store

  class Costos {
    var registros: map<Id, CostoElaboracion>

    constructor ()
      ensures registros == map[]
    {
      registros := map[];
    }

    ghost predicate Valid()
      reads this
    {
      forall id :: id in registros ==> DimensionesSoloConCm(registros[id])
    }

    /** Creates a parameter under a fresh id, or stores nothing. */
    method Crear(s: SolicitudCosto, existentes: set<Id>, nuevoId: Id) returns (r: Result<Id, Rechazo>)
      requires nuevoId !in registros
      modifies this
      ensures Creacion(s, existentes).Err? ==>
        r == Err(Creacion(s, existentes).error) && registros == old(registros)
      ensures Creacion(s, existentes).Ok? ==>
        r == Ok(nuevoId) && registros == old(registros)[nuevoId := Creacion(s, existentes).value]
      ensures old(Valid()) ==> Valid()
    {
      var c := Creacion(s, existentes);
      if c.Err? {
        return Err(c.error);
      }
      registros := registros[nuevoId := c.value];
      r := Ok(nuevoId);
    }

    /** Updates the parameter `id`: the update object is assembled from the
        request and the stored document, its dimensions are reassigned by
        unit, and the result is written only if it passes the validators. */
    method Actualizar(id: Id, s: SolicitudCosto, existentes: set<Id>) returns (r: Result<CostoElaboracion, Rechazo>)
      modifies this
      ensures id !in old(registros) ==> r == Err(NoEncontrado)
      ensures var viejo := if id in old(registros) then Some(old(registros)[id]) else None;
        r == Actualizacion(s, viejo, existentes)
      ensures r.Err? ==> registros == old(registros)
      ensures r.Ok? ==> registros == old(registros)[id := r.value]
      ensures old(Valid()) ==> Valid()
    {
      if id !in registros {
        return Err(NoEncontrado);
      }
      var viejo := registros[id];
      if s.subcategoriasAplica.Some? && FaltanSubcategorias(s.subcategoriasAplica.value, existentes) {
        return Err(AlgunaSubcategoriaNoExiste);
      }
      var d := DatosActualizacion(
        OrStr(s.nombre, viejo.nombre),
        if s.descripcion.Some? then s.descripcion else viejo.descripcion,
        OrStr(s.unidad, viejo.unidad),
        if s.costo.Some? then s.costo.value else Num(viejo.costo),
        None, None,
        if s.subcategoriasAplica.Some? then s.subcategoriasAplica.value else viejo.subcategoriasAplica);
      if s.unidad == Some(CM_CUADRADO) {
        d := d.(anchoPlancha := OrOpcion(s.anchoPlancha, viejo.anchoPlancha));
        d := d.(largoPlancha := OrOpcion(s.largoPlancha, viejo.largoPlancha));
      } else {
        d := d.(anchoPlancha := None, largoPlancha := None);
      }
      assert d == Datos(s, viejo);
      r := Aplicar(d);
      if r.Ok? {
        registros := registros[id := r.value];
      }
    }
  }
}
