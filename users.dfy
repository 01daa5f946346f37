/** The user record: the role enum, the name rule, the password re-hash on
    save and the role test. */
module Users {
  import opened Common

  datatype Rol = Vendedor | Gerente | Admin

  function NombreRol(r: Rol): (s: string)
    ensures s in ROLES
  {
    match r
    case Vendedor => "vendedor"
    case Gerente => "gerente"
    case Admin => "admin"
  }

  /** The stored strings of the three roles. */
  const ROLES: seq<string> := ["vendedor", "gerente", "admin"]

  const ROL_POR_DEFECTO: Rol := Vendedor

  /** The role a string names, if it is one of the enum's values. */
  function RolDesdeNombre(s: string): (r: Option<Rol>)
    ensures r.Some? <==> s in ROLES
    ensures r.Some? ==> NombreRol(r.value) == s
  {
    if s == "vendedor" then Some(Vendedor)
    else if s == "gerente" then Some(Gerente)
    else if s == "admin" then Some(Admin)
    else None
  }

  lemma RolIdaYVuelta(r: Rol)
    ensures RolDesdeNombre(NombreRol(r)) == Some(r)
  {
  }

  /** Exactly three roles, with distinct names. */
  lemma TresRoles()
    ensures |ROLES| == 3
    ensures forall r: Rol :: NombreRol(r) in ROLES
    ensures forall a: Rol, b: Rol :: NombreRol(a) == NombreRol(b) ==> a == b
  {
  }

  datatype Usuario = Usuario(
    nombre: string,
    correo: string,
    password: string,
    fbtoken: Option<string>,
    rol: Rol,
    ultimoAcceso: int)

  /** A user record without its password: what every response carries. */
  datatype UsuarioPublico = UsuarioPublico(
    nombre: string,
    correo: string,
    fbtoken: Option<string>,
    rol: Rol,
    ultimoAcceso: int)

  function Publico(u: Usuario): (p: UsuarioPublico)
    ensures p.nombre == u.nombre && p.correo == u.correo && p.fbtoken == u.fbtoken
    ensures p.rol == u.rol && p.ultimoAcceso == u.ultimoAcceso
  {
    UsuarioPublico(u.nombre, u.correo, u.fbtoken, u.rol, u.ultimoAcceso)
  }

  const NOMBRE_MAX := 50

  /** The characters JavaScript's `\s` matches: the ASCII white space and
      line terminators, the no-break space, the Unicode space separators,
      the line and paragraph separators, and the byte order mark. */
  predicate EspacioJs(c: char) {
    c in " \t\n\r\U{000B}\U{000C}\U{00A0}\U{1680}\U{2028}\U{2029}\U{202F}\U{205F}\U{3000}\U{FEFF}" ||
    ('\U{2000}' <= c <= '\U{200A}')
  }

  /** The characters the name pattern accepts: ASCII letters, the accented
      vowels, ñ and whatever `\s` matches. */
  function CaracterDeNombre(c: char): (b: bool)
    ensures EspacioJs(c) ==> b
    ensures '0' <= c <= '9' ==> !b
    ensures b <==> ('a' <= c <= 'z') || ('A' <= c <= 'Z') || c in "áéíóúÁÉÍÓÚñÑ" || EspacioJs(c)
  {
    ('a' <= c <= 'z') || ('A' <= c <= 'Z') || c in "áéíóúÁÉÍÓÚñÑ" || EspacioJs(c)
  }

  /** A name the schema accepts: non-empty, at most 50 characters, letters
      and spaces only. */
  predicate NombreValido(nombre: string) {
    0 < |nombre| <= NOMBRE_MAX && forall i :: 0 <= i < |nombre| ==> CaracterDeNombre(nombre[i])
  }

  /** Illustrations of the name rule: accented letters and a no-break
      space pass; a digit or an empty name fails. */
  lemma EjemplosDeNombre()
    ensures NombreValido("José Pérez") && NombreValido("Ana\U{00A0}Paz")
    ensures !NombreValido("Ana2") && !NombreValido("")
  {
    assert !CaracterDeNombre("Ana2"[3]);
  }

  predicate ValidUsuario(u: Usuario) {
    NombreValido(u.nombre) && u.correo != "" && u.password != ""
  }

  /** A new user document: the role defaults to vendedor. */
  function NuevoUsuario(nombre: string, correo: string, password: string, rol: Option<Rol>, now: int): (u: Usuario)
    ensures u.rol == rol.GetOr(ROL_POR_DEFECTO) && u.ultimoAcceso == now && u.fbtoken.None?
    ensures rol.None? ==> u.rol == Vendedor
    ensures ValidUsuario(u) <==> NombreValido(nombre) && correo != "" && password != ""
  {
    Usuario(nombre, correo, password, None, rol.GetOr(ROL_POR_DEFECTO), now)
  }

  /** The pre-save hook: the password is hashed only when it was modified;
      `hash` stands for the salted hash. */
  function PreGuardar(u: Usuario, passwordModificado: bool, hash: string -> string): (r: Usuario)
    ensures passwordModificado ==> r.password == hash(u.password)
    ensures !passwordModificado ==> r == u
    ensures r.(password := u.password) == u
  {
    if passwordModificado then u.(password := hash(u.password)) else u
  }

  /** `roles.includes(rol)`. */
  predicate TieneRol(u: Usuario, roles: seq<string>) {
    NombreRol(u.rol) in roles
  }

  /** The role test agrees with the role enum: every user passes the test
      with all of ROLES, and a user passes exactly when one of the listed
      names parses to the user's role. */
  lemma TieneRolSegunEnum(u: Usuario, roles: seq<string>)
    ensures TieneRol(u, ROLES)
    ensures TieneRol(u, roles) <==> exists n :: n in roles && RolDesdeNombre(n) == Some(u.rol)
  {
    RolIdaYVuelta(u.rol);
  }
}
