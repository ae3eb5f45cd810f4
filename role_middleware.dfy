/** Role-based access control (roleMiddleware): a middleware built from a
    list of allowed roles answers 401 without an authenticated user, 403 for
    a role outside the list, and passes the request on otherwise; the
    ownership check passes teachers and administrators, and students only
    for their own records. */
module RoleMiddleware {
  import opened Wrappers
  import opened Text
  import opened Json

  /** `RolUsuario`. */
  datatype Rol = Estudiante | Profesor | Admin

  /** The user the authentication middleware attached to the request. */
  datatype AuthUser = AuthUser(id: int, rol: Rol)

  /** What a middleware does with the request: calls `next()` once, or ends
      it with a 401 or a 403 response. */
  datatype Decision = Next | Unauthorized | Forbidden

  /** `roleMiddleware(...rolesPermitidos)` applied to a request. */
  function RoleCheck(rolesPermitidos: seq<Rol>, user: Option<AuthUser>): Decision {
    if user.None? then Unauthorized
    else if user.value.rol !in rolesPermitidos then Forbidden
    else Next
  }

  /** The request goes on exactly when an authenticated user holds one of
      the allowed roles; a missing user is 401 before any role is looked at. */
  lemma RoleCheckMeans(rolesPermitidos: seq<Rol>, user: Option<AuthUser>)
    ensures RoleCheck(rolesPermitidos, user) == Next <==> user.Some? && user.value.rol in rolesPermitidos
    ensures RoleCheck(rolesPermitidos, user) == Unauthorized <==> user.None?
    ensures RoleCheck(rolesPermitidos, user) == Forbidden <==> user.Some? && user.value.rol !in rolesPermitidos
  {
  }

  const SOLO_ESTUDIANTES: seq<Rol> := [Estudiante]
  const SOLO_PROFESORES: seq<Rol> := [Profesor]
  const SOLO_ADMIN: seq<Rol> := [Admin]
  const PROFESOR_O_ADMIN: seq<Rol> := [Profesor, Admin]
  const USUARIO_AUTENTICADO: seq<Rol> := [Estudiante, Profesor, Admin]

  /** The predefined middlewares: any authenticated user passes
      `usuarioAutenticado`; `soloAdmin` passes administrators only;
      `profesorOAdmin` passes exactly teachers and administrators; the two
      single-role ones pass exactly their role. */
  lemma PredefinedRoleSets(user: AuthUser)
    ensures RoleCheck(USUARIO_AUTENTICADO, Some(user)) == Next
    ensures RoleCheck(SOLO_ADMIN, Some(user)) == Next <==> user.rol == Admin
    ensures RoleCheck(PROFESOR_O_ADMIN, Some(user)) == Next <==> user.rol == Profesor || user.rol == Admin
    ensures RoleCheck(SOLO_ESTUDIANTES, Some(user)) == Next <==> user.rol == Estudiante
    ensures RoleCheck(SOLO_PROFESORES, Some(user)) == Next <==> user.rol == Profesor
  {
    assert user.rol in USUARIO_AUTENTICADO by {
      match user.rol
      case Estudiante => assert USUARIO_AUTENTICADO[0] == Estudiante;
      case Profesor => assert USUARIO_AUTENTICADO[1] == Profesor;
      case Admin => assert USUARIO_AUTENTICADO[2] == Admin;
    }
  }

  /** Where the ownership check looks for the owner of the requested
      records: two route parameters and a body field. */
  datatype Resource = Resource(paramUsuario_id: Option<string>, paramUsuarioId: Option<string>, bodyUsuario_id: Option<Json>)

  /** `parseInt(params.usuario_id || params.usuarioId || body.usuario_id)`:
      the first non-empty route parameter, else the body field, read as an
      integer; `None` is NaN. */
  function RequestedUserId(r: Resource): Option<int> {
    if r.paramUsuario_id.Some? && r.paramUsuario_id.value != [] then ParseInt(r.paramUsuario_id.value)
    else if r.paramUsuarioId.Some? && r.paramUsuarioId.value != [] then ParseInt(r.paramUsuarioId.value)
    else match r.bodyUsuario_id
      case None => None
      case Some(v) => ParseInt(JsString(v))
  }

  /** `soloPropioDatosOAdmin`. */
  function PropioDatosOAdmin(user: Option<AuthUser>, r: Resource): Decision {
    if user.None? then Unauthorized
    else if user.value.rol == Admin || user.value.rol == Profesor then Next
    else if RequestedUserId(r) != Some(user.value.id) then Forbidden
    else Next
  }

  /** Teachers and administrators always pass; any other user passes exactly
      when the requested owner, read as a number, is the user's own id. */
  lemma PropioDatosOAdminMeans(user: Option<AuthUser>, r: Resource)
    ensures PropioDatosOAdmin(user, r) == Unauthorized <==> user.None?
    ensures user.Some? && (user.value.rol == Admin || user.value.rol == Profesor) ==> PropioDatosOAdmin(user, r) == Next
    ensures user.Some? && user.value.rol == Estudiante ==>
      (PropioDatosOAdmin(user, r) == Next <==> RequestedUserId(r) == Some(user.value.id))
  {
  }

  /** A student asking for the records under their own id in the route
      passes, whatever the body says. */
  lemma OwnRecordsPass(id: nat, rest: Option<string>, body: Option<Json>)
    ensures PropioDatosOAdmin(Some(AuthUser(id, Estudiante)), Resource(Some(NatToString(id)), rest, body)) == Next
  {
    ParseIntNatToString(id);
  }
}
