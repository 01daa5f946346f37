/** Product categories and their subcategories: the two records with their
    schema constraints, and the store with its four operations, one of them
    an all-or-nothing cascade. */
module Categories {
  import opened Common

  const NOMBRE_MAX := 50

  /** A category: a unique name and the ordered ids of its subcategories. */
  datatype Categoria = Categoria(nombre: string, subcategorias: seq<Id>)

  /** A subcategory: a name, whether its products use sizes, and its
      category. */
  datatype Subcategoria = Subcategoria(nombre: string, usaTallas: bool, categoria: Id)

  /** A name the schema accepts: present and at most 50 characters. */
  predicate NombreValido(nombre: Option<string>) {
    nombre.Some? && nombre.value != "" && |nombre.value| <= NOMBRE_MAX
  }

  predicate ValidCategoria(c: Categoria) {
    c.nombre != "" && |c.nombre| <= NOMBRE_MAX
  }

  predicate ValidSubcategoria(s: Subcategoria) {
    s.nombre != "" && |s.nombre| <= NOMBRE_MAX
  }

  /** No two categories share a name. */
  predicate NombresUnicos(categorias: map<Id, Categoria>) {
    forall a, b :: a in categorias && b in categorias && categorias[a].nombre == categorias[b].nombre ==> a == b
  }

  predicate NombreUsado(categorias: map<Id, Categoria>, nombre: string) {
    exists id :: id in categorias && categorias[id].nombre == nombre
  }

  /** Every subcategory's category exists. */
  predicate SinHuerfanas(categorias: map<Id, Categoria>, subcategorias: map<Id, Subcategoria>) {
    forall s :: s in subcategorias ==> subcategorias[s].categoria in categorias
  }

  /** Every id a category lists is a subcategory of that category. */
  predicate ListasCoherentes(categorias: map<Id, Categoria>, subcategorias: map<Id, Subcategoria>) {
    forall c, s :: c in categorias && s in categorias[c].subcategorias ==>
      s in subcategorias && subcategorias[s].categoria == c
  }

  /** The subcategories that survive deleting category `id`. */
  function SinLasDe(subcategorias: map<Id, Subcategoria>, id: Id): (r: map<Id, Subcategoria>)
    ensures forall s :: s in r <==> s in subcategorias && subcategorias[s].categoria != id
    ensures forall s :: s in r ==> r[s] == subcategorias[s]
  {
    map s | s in subcategorias && subcategorias[s].categoria != id :: subcategorias[s]
  }

  /** Deleting a subcategory leaves its id in its category's list: the
      lists stop being coherent. */
  lemma BorrarSubcategoriaDejaReferencia(categorias: map<Id, Categoria>, subcategorias: map<Id, Subcategoria>, sid: Id)
    requires sid in subcategorias && subcategorias[sid].categoria in categorias
    requires sid in categorias[subcategorias[sid].categoria].subcategorias
    ensures !ListasCoherentes(categorias, subcategorias - {sid})
  {
    var c := subcategorias[sid].categoria;
    assert sid !in subcategorias - {sid};
  }

  /** A cascade delete keeps every survivor's category in place. */
  lemma CascadaSinHuerfanas(categorias: map<Id, Categoria>, subcategorias: map<Id, Subcategoria>, id: Id)
    requires SinHuerfanas(categorias, subcategorias)
    ensures SinHuerfanas(categorias - {id}, SinLasDe(subcategorias, id))
  {
  }

  datatype Respuesta = Creada(id: Id) | Eliminada | NoEncontrada | Rechazada

  class Catalogo {
    var categorias: map<Id, Categoria>
    var subcategorias: map<Id, Subcategoria>

    constructor ()
      ensures categorias == map[] && subcategorias == map[]
    {
      categorias := map[];
      subcategorias := map[];
    }

    ghost predicate Valid()
      reads this
    {
      NombresUnicos(categorias) &&
      SinHuerfanas(categorias, subcategorias) &&
      (forall c :: c in categorias ==> ValidCategoria(categorias[c])) &&
      (forall s :: s in subcategorias ==> ValidSubcategoria(subcategorias[s]))
    }

    /** Adds a category with no subcategories; a name already in use, or
        one the schema refuses, saves nothing. */
    method AgregarCategoria(nombre: Option<string>, nuevoId: Id) returns (r: Respuesta)
      requires nuevoId !in categorias
      modifies this
      ensures subcategorias == old(subcategorias)
      ensures (nombre.Some? && NombreUsado(old(categorias), nombre.value)) || !NombreValido(nombre) ==>
        r == Rechazada && categorias == old(categorias)
      ensures NombreValido(nombre) && !NombreUsado(old(categorias), nombre.value) ==>
        r == Creada(nuevoId) && categorias == old(categorias)[nuevoId := Categoria(nombre.value, [])]
      ensures old(Valid()) ==> Valid()
      ensures old(ListasCoherentes(categorias, subcategorias)) ==> ListasCoherentes(categorias, subcategorias)
    {
      if nombre.Some? && exists id :: id in categorias && categorias[id].nombre == nombre.value {
        return Rechazada;
      }
      if !NombreValido(nombre) {
        return Rechazada;
      }
      categorias := categorias[nuevoId := Categoria(nombre.value, [])];
      r := Creada(nuevoId);
    }

    /** Creates a subcategory under category `cid` (`usaTallas` defaults to
        false) and appends its id to the category's list; an unknown
        category, or a name the schema refuses, saves nothing. */
    method CrearSubcategoria(cid: Id, nombre: Option<string>, usaTallas: Option<bool>, nuevoId: Id)
      returns (r: Respuesta)
      requires nuevoId !in subcategorias
      modifies this
      ensures cid !in old(categorias) || !NombreValido(nombre) ==>
        r == Rechazada && categorias == old(categorias) && subcategorias == old(subcategorias)
      ensures cid in old(categorias) && NombreValido(nombre) ==>
        r == Creada(nuevoId) &&
        subcategorias == old(subcategorias)[nuevoId := Subcategoria(nombre.value, usaTallas.GetOr(false), cid)] &&
        categorias == old(categorias)[cid := old(categorias)[cid].(subcategorias := old(categorias)[cid].subcategorias + [nuevoId])]
      ensures old(Valid()) ==> Valid()
      ensures old(ListasCoherentes(categorias, subcategorias)) ==> ListasCoherentes(categorias, subcategorias)
    {
      if cid !in categorias {
        return Rechazada;
      }
      if !NombreValido(nombre) {
        return Rechazada;
      }
      var nueva := Subcategoria(nombre.value, usaTallas.GetOr(false), cid);
      subcategorias := subcategorias[nuevoId := nueva];
      var categoria := categorias[cid];
      categoria := categoria.(subcategorias := categoria.subcategorias + [nuevoId]);
      categorias := categorias[cid := categoria];
      r := Creada(nuevoId);
      assert forall c :: c in categorias ==> categorias[c].nombre == old(categorias)[c].nombre;
    }

    /** Deletes category `id` with every subcategory that points at it, in
        one transaction: when the category does not exist the transaction
        is aborted and the subcategories are restored. */
    method EliminarCategoria(id: Id) returns (r: Respuesta)
      modifies this
      ensures id !in old(categorias) ==>
        r == NoEncontrada && categorias == old(categorias) && subcategorias == old(subcategorias)
      ensures id in old(categorias) ==>
        r == Eliminada && categorias == old(categorias) - {id} &&
        subcategorias == SinLasDe(old(subcategorias), id)
      ensures old(Valid()) ==> Valid()
      ensures old(ListasCoherentes(categorias, subcategorias)) ==> ListasCoherentes(categorias, subcategorias)
    {
      var antes := subcategorias;
      subcategorias := map s | s in subcategorias && subcategorias[s].categoria != id :: subcategorias[s];
      if id !in categorias {
        subcategorias := antes;
        return NoEncontrada;
      }
      categorias := categorias - {id};
      r := Eliminada;
    }

    /** Deletes subcategory `sid` only; its category's list is left as it
        was. */
    method EliminarSubcategoria(sid: Id) returns (r: Respuesta)
      modifies this
      ensures sid !in old(subcategorias) ==> r == NoEncontrada && subcategorias == old(subcategorias)
      ensures sid in old(subcategorias) ==> r == Eliminada && subcategorias == old(subcategorias) - {sid}
      ensures categorias == old(categorias)
      ensures old(Valid()) ==> Valid()
    {
      if sid !in subcategorias {
        return NoEncontrada;
      }
      subcategorias := subcategorias - {sid};
      r := Eliminada;
    }
  }
}
