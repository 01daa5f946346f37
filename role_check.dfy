/** The role guard placed in front of protected routes: it loads the
    requesting user and lets the request through only for an allowed role. */
module RoleCheck {
  import opened Common
  import opened Users

  datatype Decision = UsuarioNoEncontrado | AccesoDenegado | Permitido(usuario: Usuario)

  /** The decision for the user the token names. Only the user id comes
      from the token; the role is the stored record's. */
  function Decidir(usuarios: map<Id, Usuario>, userId: Id, permitidos: seq<string>): (d: Decision)
    ensures userId !in usuarios <==> d == UsuarioNoEncontrado
    ensures userId in usuarios ==>
      (d == AccesoDenegado <==> !TieneRol(usuarios[userId], permitidos))
    ensures d.Permitido? ==> userId in usuarios && d.usuario == usuarios[userId] && TieneRol(d.usuario, permitidos)
  {
    if userId !in usuarios then UsuarioNoEncontrado
    else if NombreRol(usuarios[userId].rol) !in permitidos then AccesoDenegado
    else Permitido(usuarios[userId])
  }

  /** A role change takes effect on the next request: the decision follows
      the stored role, whatever it was before. */
  lemma DecideConElRolActual(usuarios: map<Id, Usuario>, userId: Id, nuevo: Rol, permitidos: seq<string>)
    requires userId in usuarios
    ensures var actualizados := usuarios[userId := usuarios[userId].(rol := nuevo)];
      Decidir(actualizados, userId, permitidos).Permitido? <==> NombreRol(nuevo) in permitidos
  {
  }

  /** Only admins pass the guard the user routes install. */
  lemma SoloAdmin(usuarios: map<Id, Usuario>, userId: Id)
    ensures Decidir(usuarios, userId, [NombreRol(Admin)]).Permitido? <==>
      userId in usuarios && usuarios[userId].rol == Admin
  {
  }

  /** The request as the guard sees it: the attached user, whether a
      response was sent, and how many times the next handler ran. */
  class Solicitud {
    const userId: Id
    var usuario: Option<Usuario>
    var estado: Option<int>
    var llamadasSiguiente: nat

    constructor (userId: Id)
      ensures this.userId == userId && usuario.None? && estado.None? && llamadasSiguiente == 0
    {
      this.userId := userId;
      usuario := None;
      estado := None;
      llamadasSiguiente := 0;
    }

    /** 404 for an unknown user and 403 for a role outside `permitidos`,
        without calling the next handler; otherwise the user is attached
        and the next handler runs exactly once. */
    method VerificarRol(usuarios: map<Id, Usuario>, permitidos: seq<string>)
      modifies this
      ensures userId !in usuarios ==>
        estado == Some(404) && usuario == old(usuario) && llamadasSiguiente == old(llamadasSiguiente)
      ensures userId in usuarios && !TieneRol(usuarios[userId], permitidos) ==>
        estado == Some(403) && usuario == old(usuario) && llamadasSiguiente == old(llamadasSiguiente)
      ensures userId in usuarios && TieneRol(usuarios[userId], permitidos) ==>
        estado == old(estado) && usuario == Some(usuarios[userId]) && llamadasSiguiente == old(llamadasSiguiente) + 1
    {
      var d := Decidir(usuarios, userId, permitidos);
      match d
      case UsuarioNoEncontrado =>
        estado := Some(404);
      case AccesoDenegado =>
        estado := Some(403);
      case Permitido(u) =>
        usuario := Some(u);
        llamadasSiguiente := llamadasSiguiente + 1;
    }
  }
}
