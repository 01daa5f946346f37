/** Profile and role updates on the user collection. */
module UserControl {
  import opened Common
  import opened Users

  datatype SolicitudPerfil = SolicitudPerfil(nombre: Option<string>, password: Option<string>, fbtoken: Option<string>)

  /** The update object: only the fields the request supplies truthily. */
  datatype Cambios = Cambios(nombre: Option<string>, password: Option<string>, fbtoken: Option<string>)

  datatype ErrorUsuario = RolInvalido | NoEncontrado | ErrorInterno

  /** A truthy request value, or nothing. */
  function SiVerdadero(s: Option<string>): (r: Option<string>)
    ensures Truthy(s) ==> r == s
    ensures !Truthy(s) ==> r.None?
  {
    if Truthy(s) then s else None
  }

  /** The stored user with the update applied: supplied fields replaced,
      every other field untouched. */
  function Aplicar(u: Usuario, c: Cambios): (r: Usuario)
    ensures r.nombre == c.nombre.GetOr(u.nombre)
    ensures r.password == c.password.GetOr(u.password)
    ensures r.fbtoken == (if c.fbtoken.Some? then c.fbtoken else u.fbtoken)
    ensures r.correo == u.correo && r.rol == u.rol && r.ultimoAcceso == u.ultimoAcceso
  {
    u.(nombre := c.nombre.GetOr(u.nombre),
       password := c.password.GetOr(u.password),
       fbtoken := if c.fbtoken.Some? then c.fbtoken else u.fbtoken)
  }

  /** The update validators check the new name. */
  predicate CambiosValidos(c: Cambios) {
    c.nombre.None? || NombreValido(c.nombre.value)
  }

  /** The request names a new, truthy name that the name rule refuses. */
  predicate NombrePedidoInvalido(s: SolicitudPerfil) {
    Truthy(s.nombre) && !NombreValido(s.nombre.value)
  }

  /** The outcome of a profile update of the stored `u` (absent for an
      unknown id), with the new password hashed by `hash`. The update
      validators run before the query, so a refused name fails whether or
      not the user exists; past them, an unknown id is not an error: the
      response is empty. */
  function Actualizacion(u: Option<Usuario>, s: SolicitudPerfil, hash: string -> string)
    : (r: Result<Option<Usuario>, ErrorUsuario>)
    ensures u.None? && !NombrePedidoInvalido(s) ==> r == Ok(None)
    ensures u.Some? && r.Ok? ==> r.value.Some?
    ensures r.Ok? && r.value.Some? ==>
      u.Some? &&
      r.value.value.nombre == OrStr(s.nombre, u.value.nombre) &&
      r.value.value.password == (if Truthy(s.password) then hash(s.password.value) else u.value.password) &&
      r.value.value.fbtoken == (if Truthy(s.fbtoken) then s.fbtoken else u.value.fbtoken) &&
      r.value.value.correo == u.value.correo && r.value.value.rol == u.value.rol
    ensures r.Err? <==> NombrePedidoInvalido(s)
    ensures r.Err? ==> r.error == ErrorInterno
  {
    var c := Cambios(SiVerdadero(s.nombre),
                     if Truthy(s.password) then Some(hash(s.password.value)) else None,
                     SiVerdadero(s.fbtoken));
    if !CambiosValidos(c) then Err(ErrorInterno)
    else if u.None? then Ok(None)
    else Ok(Some(Aplicar(u.value, c)))
  }

  /** As written, the hashing library is used without being imported, so a
      request carrying a password throws before anything is written. */
  function ActualizacionTalCual(u: Option<Usuario>, s: SolicitudPerfil): (r: Result<Option<Usuario>, ErrorUsuario>)
    ensures !Truthy(s.password) ==> r == Actualizacion(u, s, x => x)
    ensures NombrePedidoInvalido(s) ==> r == Err(ErrorInterno)
  {
    if Truthy(s.password) then Err(ErrorInterno)
    else
      var c := Cambios(SiVerdadero(s.nombre), None, SiVerdadero(s.fbtoken));
      if !CambiosValidos(c) then Err(ErrorInterno)
      else if u.None? then Ok(None)
      else Ok(Some(Aplicar(u.value, c)))
  }

  /** As written, no password change ever succeeds. */
  lemma PasswordNuncaCambiaTalCual(u: Option<Usuario>, s: SolicitudPerfil)
    requires Truthy(s.password)
    ensures ActualizacionTalCual(u, s) == Err(ErrorInterno)
  {
  }

  /** With the hashing library imported, a password change on an existing
      user with an acceptable name stores the hash of the new password. */
  lemma PasswordCambiada(u: Usuario, s: SolicitudPerfil, hash: string -> string)
    requires Truthy(s.password)
    requires !Truthy(s.nombre) || NombreValido(s.nombre.value)
    ensures Actualizacion(Some(u), s, hash).Ok?
    ensures Actualizacion(Some(u), s, hash).value == Some(Aplicar(u, Cambios(SiVerdadero(s.nombre), Some(hash(s.password.value)), SiVerdadero(s.fbtoken))))
    ensures Actualizacion(Some(u), s, hash).value.value.password == hash(s.password.value)
  {
  }

  /** A request with no truthy field changes nothing. */
  lemma SinCamposNoCambia(u: Usuario, s: SolicitudPerfil, hash: string -> string)
    requires !Truthy(s.nombre) && !Truthy(s.password) && !Truthy(s.fbtoken)
    ensures Actualizacion(Some(u), s, hash) == Ok(Some(u))
  {
  }

  class Directorio {
    var usuarios: map<Id, Usuario>

    constructor (inicial: map<Id, Usuario>)
      ensures usuarios == inicial
    {
      usuarios := inicial;
    }

    /** Fills the update object field by field. */
    method ConstruirCambios(s: SolicitudPerfil, hash: string -> string) returns (c: Cambios)
      ensures c.nombre == SiVerdadero(s.nombre) && c.fbtoken == SiVerdadero(s.fbtoken)
      ensures Truthy(s.password) ==> c.password == Some(hash(s.password.value))
      ensures !Truthy(s.password) ==> c.password.None?
    {
      c := Cambios(None, None, None);
      if Truthy(s.nombre) {
        c := c.(nombre := s.nombre);
      }
      if Truthy(s.password) {
        c := c.(password := Some(hash(s.password.value)));
      }
      if Truthy(s.fbtoken) {
        c := c.(fbtoken := s.fbtoken);
      }
    }

    /** Updates the authenticated user's profile; the response is the
        record without its password. A name the validators refuse fails
        even for an unknown id. */
    method ActualizarUsuario(userId: Id, s: SolicitudPerfil, hash: string -> string)
      returns (r: Result<Option<UsuarioPublico>, ErrorUsuario>)
      modifies this
      ensures NombrePedidoInvalido(s) ==> r == Err(ErrorInterno) && usuarios == old(usuarios)
      ensures var viejo := if userId in old(usuarios) then Some(old(usuarios)[userId]) else None;
        var a := Actualizacion(viejo, s, hash);
        (a.Err? ==> r == Err(a.error) && usuarios == old(usuarios)) &&
        (a == Ok(None) ==> r == Ok(None) && usuarios == old(usuarios)) &&
        (a.Ok? && a.value.Some? ==>
          r == Ok(Some(Publico(a.value.value))) && usuarios == old(usuarios)[userId := a.value.value])
    {
      var c := ConstruirCambios(s, hash);
      if !CambiosValidos(c) {
        return Err(ErrorInterno);
      }
      if userId !in usuarios {
        return Ok(None);
      }
      var nuevo := Aplicar(usuarios[userId], c);
      usuarios := usuarios[userId := nuevo];
      r := Ok(Some(Publico(nuevo)));
    }

    /** Sets the role of user `id`: 400 for a value outside the role enum,
        404 for an unknown id, and no change in either case. */
    method ActualizarRolUsuario(id: Id, rol: Option<string>) returns (r: Result<UsuarioPublico, ErrorUsuario>)
      modifies this
      ensures rol.None? || rol.value !in ROLES ==> r == Err(RolInvalido) && usuarios == old(usuarios)
      ensures rol.Some? && rol.value in ROLES && id !in old(usuarios) ==> r == Err(NoEncontrado) && usuarios == old(usuarios)
      ensures rol.Some? && rol.value in ROLES && id in old(usuarios) ==>
        var nuevo := old(usuarios)[id].(rol := RolDesdeNombre(rol.value).value);
        NombreRol(nuevo.rol) == rol.value &&
        r == Ok(Publico(nuevo)) && usuarios == old(usuarios)[id := nuevo]
    {
      if rol.None? || rol.value !in ROLES {
        return Err(RolInvalido);
      }
      var nuevoRol := RolDesdeNombre(rol.value).value;
      if id !in usuarios {
        return Err(NoEncontrado);
      }
      var nuevo := usuarios[id].(rol := nuevoRol);
      usuarios := usuarios[id := nuevo];
      r := Ok(Publico(nuevo));
    }
  }
}
