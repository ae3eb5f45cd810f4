/** The user service (UserService): the profile update, which checks and
    trims the supplied name, surname and photo URL on a freshly loaded user
    entity before saving it, and the arithmetic of the general progress
    report (percentage per subject, topics not started). */
module UserService {
  import opened Wrappers
  import opened Text
  import RoleMiddleware
  import QuizService

  /** `EstadoUsuario`. */
  datatype EstadoUsuario = Activo | Inactivo | Suspendido

  /** A stored user row. Nullable columns are `Option`s. */
  datatype Usuario = Usuario(
    id: int, email: string, contrasenaHash: string, nombre: string, apellido: Option<string>,
    rol: RoleMiddleware.Rol, estado: EstadoUsuario, fotoPerfil: Option<string>, matricula: Option<string>)

  /** A field of the request body, passed on unchecked: absent, `null`, a
      string, or any other JSON value, of which only its truthiness matters
      (a truthy one has no `trim` method; a falsy one is `0` or `false`). */
  datatype Supplied = Undefined | Null | Str(s: string) | NonString(truthy: bool)

  /** `ActualizarPerfilDto`. */
  datatype ActualizarPerfilDto = ActualizarPerfilDto(nombre: Supplied, apellido: Supplied, fotoPerfil: Supplied)

  /** The profile returned after the update. */
  datatype PerfilActualizado = PerfilActualizado(
    id: int, email: string, nombre: string, apellido: Option<string>, rol: RoleMiddleware.Rol,
    matricula: Option<string>, foto_perfil: Option<string>, estado: EstadoUsuario)

  /** The errors `actualizarPerfil` throws. */
  datatype PerfilError = UsuarioNoEncontrado | NombreCorto | ApellidoCorto | FotoInvalida | TrimNoEsFuncion(campo: string)

  /** The message each error carries. */
  function Mensaje(e: PerfilError): string {
    match e
    case UsuarioNoEncontrado => "Usuario no encontrado"
    case NombreCorto => "El nombre debe tener al menos 2 caracteres"
    case ApellidoCorto => "El apellido debe tener al menos 2 caracteres"
    case FotoInvalida => "La foto de perfil debe ser una URL v\U{E1}lida (http:// o https://)"
    case TrimNoEsFuncion(campo) => "datos." + campo + ".trim is not a function"
  }

  function Perfil(u: Usuario): PerfilActualizado {
    PerfilActualizado(u.id, u.email, u.nombre, u.apellido, u.rol, u.matricula, u.fotoPerfil, u.estado)
  }

  // ------------------------------------------------------------ the rules

  /** A truthy value that is not a string: calling `trim` on it throws a
      TypeError. */
  predicate Untrimmable(f: Supplied) {
    f.NonString? && f.truthy
  }

  /** A supplied name or surname is accepted when it is a string whose
      trimmed length is at least 2 (`null` and "" are refused). */
  predicate NameAccepted(f: Supplied) {
    f.Str? && |Trim(f.s)| >= 2
  }

  /** `/^https?:\/\/.+/` on the raw value: `http://` or `https://` followed
      by at least one character other than a line terminator. */
  predicate IsProfileUrl(s: string) {
    || (StartsWith(s, "http://") && |s| > 7 && !IsLineTerminator(s[7]))
    || (StartsWith(s, "https://") && |s| > 8 && !IsLineTerminator(s[8]))
  }

  /** A photo value that is checked against the pattern: a string that is
      not blank. `null` and blank strings clear the photo instead. */
  predicate PhotoChecked(f: Supplied) {
    f.Str? && |Trim(f.s)| > 0
  }

  /** The `nombre` step: an absent value keeps the row, a refused one
      stops the update, an accepted one is stored trimmed. */
  function SetNombre(u: Usuario, f: Supplied): Result<Usuario, PerfilError> {
    if f.Undefined? then Ok(u)
    else if Untrimmable(f) then Err(TrimNoEsFuncion("nombre"))
    else if !NameAccepted(f) then Err(NombreCorto)
    else Ok(u.(nombre := Trim(f.s)))
  }

  /** The `apellido` step, as the `nombre` one. */
  function SetApellido(u: Usuario, f: Supplied): Result<Usuario, PerfilError> {
    if f.Undefined? then Ok(u)
    else if Untrimmable(f) then Err(TrimNoEsFuncion("apellido"))
    else if !NameAccepted(f) then Err(ApellidoCorto)
    else Ok(u.(apellido := Some(Trim(f.s))))
  }

  /** The `fotoPerfil` step: a non-blank value must be an http(s) URL and is
      stored trimmed; `null`, a blank value, `0` or `false` clears the photo
      to "". */
  function SetFoto(u: Usuario, f: Supplied): Result<Usuario, PerfilError> {
    if f.Undefined? then Ok(u)
    else if Untrimmable(f) then Err(TrimNoEsFuncion("fotoPerfil"))
    else if !PhotoChecked(f) then Ok(u.(fotoPerfil := Some("")))
    else if !IsProfileUrl(f.s) then Err(FotoInvalida)
    else Ok(u.(fotoPerfil := Some(Trim(f.s))))
  }

  /** The outcome of `actualizarPerfil` on the loaded row: the first failed
      check in the order name, surname, photo, or the updated row. */
  function ProfileUpdate(u: Usuario, datos: ActualizarPerfilDto): Result<Usuario, PerfilError> {
    match SetNombre(u, datos.nombre)
    case Err(e) => Err(e)
    case Ok(u1) =>
      match SetApellido(u1, datos.apellido)
      case Err(e) => Err(e)
      case Ok(u2) => SetFoto(u2, datos.fotoPerfil)
  }

  /** The update fails exactly when a supplied name or surname is not a
      string of at least two characters, or a photo is truthy and not a
      string, or a non-blank photo is not an http(s) URL; it reports the
      first of these in the order name, surname, photo, a truthy non-string
      as the TypeError of its `trim` call. */
  lemma ProfileUpdateErrors(u: Usuario, datos: ActualizarPerfilDto)
    ensures var r := ProfileUpdate(u, datos);
      var nombreMal := !datos.nombre.Undefined? && !NameAccepted(datos.nombre);
      var apellidoMal := !datos.apellido.Undefined? && !NameAccepted(datos.apellido);
      var urlMal := PhotoChecked(datos.fotoPerfil) && !IsProfileUrl(datos.fotoPerfil.s);
      var fotoMal := Untrimmable(datos.fotoPerfil) || urlMal;
      && (r.Err? <==> nombreMal || apellidoMal || fotoMal)
      && (r == Err(TrimNoEsFuncion("nombre")) <==> Untrimmable(datos.nombre))
      && (r == Err(NombreCorto) <==> nombreMal && !Untrimmable(datos.nombre))
      && (r == Err(TrimNoEsFuncion("apellido")) <==> !nombreMal && Untrimmable(datos.apellido))
      && (r == Err(ApellidoCorto) <==> !nombreMal && apellidoMal && !Untrimmable(datos.apellido))
      && (r == Err(TrimNoEsFuncion("fotoPerfil")) <==> !nombreMal && !apellidoMal && Untrimmable(datos.fotoPerfil))
      && (r == Err(FotoInvalida) <==> !nombreMal && !apellidoMal && urlMal)
      && r != Err(UsuarioNoEncontrado)
  {
    SetNombreOutcome(u, datos.nombre);
    if SetNombre(u, datos.nombre).Ok? {
      var u1 := SetNombre(u, datos.nombre).value;
      SetApellidoOutcome(u1, datos.apellido);
      if SetApellido(u1, datos.apellido).Ok? {
        SetFotoOutcome(SetApellido(u1, datos.apellido).value, datos.fotoPerfil);
      }
    }
  }

  lemma SetNombreOutcome(u: Usuario, f: Supplied)
    ensures SetNombre(u, f).Err? <==> !f.Undefined? && !NameAccepted(f)
    ensures SetNombre(u, f).Err? ==>
      SetNombre(u, f).error == if Untrimmable(f) then TrimNoEsFuncion("nombre") else NombreCorto
  {
  }

  lemma SetApellidoOutcome(u: Usuario, f: Supplied)
    ensures SetApellido(u, f).Err? <==> !f.Undefined? && !NameAccepted(f)
    ensures SetApellido(u, f).Err? ==>
      SetApellido(u, f).error == if Untrimmable(f) then TrimNoEsFuncion("apellido") else ApellidoCorto
  {
  }

  lemma SetFotoOutcome(u: Usuario, f: Supplied)
    ensures SetFoto(u, f).Err? <==> Untrimmable(f) || (PhotoChecked(f) && !IsProfileUrl(f.s))
    ensures SetFoto(u, f).Err? ==>
      SetFoto(u, f).error == if Untrimmable(f) then TrimNoEsFuncion("fotoPerfil") else FotoInvalida
  {
  }

  /** A successful update changes only the supplied fields: the id, e-mail,
      password hash, role, state and enrolment number are kept, and each
      field not supplied keeps its value. */
  lemma ProfileUpdateKeeps(u: Usuario, datos: ActualizarPerfilDto)
    requires ProfileUpdate(u, datos).Ok?
    ensures var v := ProfileUpdate(u, datos).value;
      && v.id == u.id && v.email == u.email && v.contrasenaHash == u.contrasenaHash
      && v.rol == u.rol && v.estado == u.estado && v.matricula == u.matricula
      && v.nombre == (if datos.nombre.Str? then Trim(datos.nombre.s) else u.nombre)
      && v.apellido == (if datos.apellido.Str? then Some(Trim(datos.apellido.s)) else u.apellido)
      && (datos.fotoPerfil.Undefined? ==> v.fotoPerfil == u.fotoPerfil)
  {
    var u1 := SetNombre(u, datos.nombre).value;
    var u2 := SetApellido(u1, datos.apellido).value;
    var v := SetFoto(u2, datos.fotoPerfil).value;
    assert ProfileUpdate(u, datos).value == v;
    assert v.nombre == u2.nombre == u1.nombre;
    assert v.apellido == u2.apellido;
  }

  /** A stored name or surname that was supplied is trimmed and at least two
      characters long. */
  lemma StoredNamesValid(u: Usuario, datos: ActualizarPerfilDto)
    requires ProfileUpdate(u, datos).Ok?
    ensures var v := ProfileUpdate(u, datos).value;
      && (datos.nombre.Str? ==> |v.nombre| >= 2 && Trim(v.nombre) == v.nombre)
      && (datos.apellido.Str? ==> v.apellido.Some? && |v.apellido.value| >= 2 && Trim(v.apellido.value) == v.apellido.value)
  {
    ProfileUpdateKeeps(u, datos);
    if datos.nombre.Str? {
      assert SetNombre(u, datos.nombre).Ok?;
      AcceptedNameTrimmed(datos.nombre);
    }
    if datos.apellido.Str? {
      var u1 := SetNombre(u, datos.nombre).value;
      assert SetApellido(u1, datos.apellido).Ok?;
      AcceptedNameTrimmed(datos.apellido);
    }
  }

  /** An accepted name, once trimmed, is at least two characters long and
      has nothing left to trim. */
  lemma AcceptedNameTrimmed(f: Supplied)
    requires NameAccepted(f)
    ensures |Trim(f.s)| >= 2 && Trim(Trim(f.s)) == Trim(f.s)
  {
    TrimIdentity(Trim(f.s));
  }

  /** `trimEnd` keeps every character up to the last non-whitespace one. */
  lemma TrimEndKeeps(s: string, j: nat)
    requires j < |s| && !IsWhitespace(s[j])
    ensures j < |TrimEnd(s)| && TrimEnd(s)[..j + 1] == s[..j + 1]
  {
  }

  /** Trimming a text that starts with a non-blank prefix keeps the prefix. */
  lemma TrimKeepsPrefix(s: string, p: string)
    requires p != [] && StartsWith(s, p) && !IsWhitespace(p[0]) && !IsWhitespace(p[|p| - 1])
    ensures StartsWith(Trim(s), p)
  {
    assert s[0] == p[0];
    assert TrimStart(s) == s;
    TrimEndKeeps(s, |p| - 1);
    assert TrimEnd(s)[..|p|] == s[..|p|];
  }

  /** A stored photo is either cleared ("") or the trimmed URL, which still
      starts with `http://` or `https://`. */
  lemma StoredPhotoIsUrl(u: Usuario, datos: ActualizarPerfilDto)
    requires ProfileUpdate(u, datos).Ok? && !datos.fotoPerfil.Undefined?
    ensures var f := ProfileUpdate(u, datos).value.fotoPerfil;
      && f.Some?
      && (f.value == "" <==> !PhotoChecked(datos.fotoPerfil))
      && (f.value != "" ==> StartsWith(f.value, "http://") || StartsWith(f.value, "https://"))
  {
    var u1 := SetNombre(u, datos.nombre).value;
    var u2 := SetApellido(u1, datos.apellido).value;
    assert ProfileUpdate(u, datos) == SetFoto(u2, datos.fotoPerfil);
    StoredPhotoStep(u2, datos.fotoPerfil);
  }

  /** The photo step on its own. */
  lemma StoredPhotoStep(u: Usuario, f: Supplied)
    requires SetFoto(u, f).Ok? && !f.Undefined?
    ensures var p := SetFoto(u, f).value.fotoPerfil;
      && p.Some?
      && (p.value == "" <==> !PhotoChecked(f))
      && (p.value != "" ==> StartsWith(p.value, "http://") || StartsWith(p.value, "https://"))
  {
    if PhotoChecked(f) {
      if StartsWith(f.s, "http://") {
        TrimKeepsPrefix(f.s, "http://");
      } else {
        TrimKeepsPrefix(f.s, "https://");
      }
    }
  }

  // --------------------------------------------------------- the entities

  /** A user entity as loaded by `findOne`: a fresh object whose fields the
      service overwrites one by one. */
  class UsuarioEntity {
    const id: int
    var email: string
    var contrasenaHash: string
    var nombre: string
    var apellido: Option<string>
    var rol: RoleMiddleware.Rol
    var estado: EstadoUsuario
    var fotoPerfil: Option<string>
    var matricula: Option<string>

    constructor (row: Usuario)
      ensures Row() == row
    {
      id := row.id;
      email := row.email;
      contrasenaHash := row.contrasenaHash;
      nombre := row.nombre;
      apellido := row.apellido;
      rol := row.rol;
      estado := row.estado;
      fotoPerfil := row.fotoPerfil;
      matricula := row.matricula;
    }

    /** The row `save` writes. */
    function Row(): Usuario
      reads this
    {
      Usuario(id, email, contrasenaHash, nombre, apellido, rol, estado, fotoPerfil, matricula)
    }
  }

  /** The `usuarios` table, keyed by id. */
  class UsuarioRepository {
    var rows: map<int, Usuario>

    constructor (rows: map<int, Usuario>)
      ensures this.rows == rows
    {
      this.rows := rows;
    }

    /** Every row is stored under its own id. */
    predicate Valid()
      reads this
    {
      forall k :: k in rows ==> rows[k].id == k
    }

    /** `findOne({ where: { id } })`. */
    method FindOne(id: int) returns (u: UsuarioEntity?)
      ensures u == null <==> id !in rows
      ensures u != null ==> fresh(u) && u.Row() == rows[id]
    {
      if id in rows {
        u := new UsuarioEntity(rows[id]);
      } else {
        u := null;
      }
    }

    /** `save(usuario)`: the row under the entity's id is replaced. */
    method Save(u: UsuarioEntity)
      requires Valid()
      modifies this
      ensures rows == old(rows)[u.id := u.Row()]
      ensures Valid()
    {
      rows := rows[u.id := u.Row()];
    }
  }

  class UserServiceImpl {
    const usuarioRepository: UsuarioRepository

    constructor (repository: UsuarioRepository)
      ensures usuarioRepository == repository
    {
      usuarioRepository := repository;
    }

    /** The `nombre` block: a truthy non-string throws at `trim`; any other
        supplied name must be a string of at least two characters once
        trimmed, and is then written trimmed. */
    method AplicarNombre(usuario: UsuarioEntity, nombre: Supplied) returns (error: Option<PerfilError>)
      modifies usuario
      ensures match SetNombre(old(usuario.Row()), nombre)
        case Ok(v) => error.None? && usuario.Row() == v
        case Err(e) => error == Some(e)
    {
      ghost var before := usuario.Row();
      if nombre.Undefined? {
        assert SetNombre(before, nombre) == Ok(before);
        return None;
      }
      if Untrimmable(nombre) {
        return Some(TrimNoEsFuncion("nombre"));
      }
      if !NameAccepted(nombre) {
        return Some(NombreCorto);
      }
      var recortado := Trim(nombre.s);
      usuario.nombre := recortado;
      assert usuario.Row() == before.(nombre := recortado);
      return None;
    }

    /** The `apellido` block, as the `nombre` one. */
    method AplicarApellido(usuario: UsuarioEntity, apellido: Supplied) returns (error: Option<PerfilError>)
      modifies usuario
      ensures match SetApellido(old(usuario.Row()), apellido)
        case Ok(v) => error.None? && usuario.Row() == v
        case Err(e) => error == Some(e)
    {
      ghost var before := usuario.Row();
      if apellido.Undefined? {
        assert SetApellido(before, apellido) == Ok(before);
        return None;
      }
      if Untrimmable(apellido) {
        return Some(TrimNoEsFuncion("apellido"));
      }
      if !NameAccepted(apellido) {
        return Some(ApellidoCorto);
      }
      var recortado := Trim(apellido.s);
      usuario.apellido := Some(recortado);
      assert usuario.Row() == before.(apellido := Some(recortado));
      return None;
    }

    /** The `fotoPerfil` block: a truthy non-string throws at `trim`; a
        non-blank value must match the URL pattern and is written trimmed;
        `null`, a blank value, `0` or `false` clears the photo. */
    method AplicarFoto(usuario: UsuarioEntity, fotoPerfil: Supplied) returns (error: Option<PerfilError>)
      modifies usuario
      ensures match SetFoto(old(usuario.Row()), fotoPerfil)
        case Ok(v) => error.None? && usuario.Row() == v
        case Err(e) => error == Some(e)
    {
      ghost var before := usuario.Row();
      if Untrimmable(fotoPerfil) {
        return Some(TrimNoEsFuncion("fotoPerfil"));
      }
      if !fotoPerfil.Undefined? {
        var recortado := if fotoPerfil.Str? then Trim(fotoPerfil.s) else "";
        if fotoPerfil.Str? && |recortado| > 0 {
          if !IsProfileUrl(fotoPerfil.s) {
            assert SetFoto(before, fotoPerfil) == Err(FotoInvalida);
            return Some(FotoInvalida);
          }
          usuario.fotoPerfil := Some(recortado);
          assert SetFoto(before, fotoPerfil) == Ok(before.(fotoPerfil := Some(recortado))) == Ok(usuario.Row());
        } else {
          usuario.fotoPerfil := Some("");
          assert SetFoto(before, fotoPerfil) == Ok(before.(fotoPerfil := Some(""))) == Ok(usuario.Row());
        }
      } else {
        assert SetFoto(before, fotoPerfil) == Ok(before);
      }
      return None;
    }

    /** `actualizarPerfil`: a missing user is reported; otherwise the row is
        saved only when every check passes, as `ProfileUpdate` describes. */
    method ActualizarPerfil(usuarioId: int, datos: ActualizarPerfilDto) returns (r: Result<PerfilActualizado, PerfilError>)
      requires usuarioRepository.Valid()
      modifies usuarioRepository
      ensures usuarioRepository.Valid()
      ensures usuarioId !in old(usuarioRepository.rows) ==>
        r == Err(UsuarioNoEncontrado) && usuarioRepository.rows == old(usuarioRepository.rows)
      ensures usuarioId in old(usuarioRepository.rows) ==>
        match ProfileUpdate(old(usuarioRepository.rows)[usuarioId], datos)
        case Ok(v) => usuarioRepository.rows == old(usuarioRepository.rows)[usuarioId := v] && r == Ok(Perfil(v))
        case Err(e) => usuarioRepository.rows == old(usuarioRepository.rows) && r == Err(e)
    {
      var usuario := usuarioRepository.FindOne(usuarioId);
      if usuario == null {
        return Err(UsuarioNoEncontrado);
      }
      var error := AplicarNombre(usuario, datos.nombre);
      if error.Some? {
        return Err(error.value);
      }
      error := AplicarApellido(usuario, datos.apellido);
      if error.Some? {
        return Err(error.value);
      }
      error := AplicarFoto(usuario, datos.fotoPerfil);
      if error.Some? {
        return Err(error.value);
      }
      usuarioRepository.Save(usuario);
      return Ok(Perfil(usuario.Row()));
    }
  }

  // ------------------------------------------------- the progress report

  /** A topic progress record of the user: the subject of its topic and its
      state. */
  datatype ProgresoTema = ProgresoTema(materiaId: int, estado: QuizService.Estado)

  /** The number of records in a state. */
  function CountEstado(ps: seq<ProgresoTema>, e: QuizService.Estado): (n: nat)
    ensures n <= |ps|
  {
    if ps == [] then 0
    else CountEstado(ps[..|ps| - 1], e) + (if ps[|ps| - 1].estado == e then 1 else 0)
  }

  /** The number of records of one subject in a state. */
  function CountEstadoEn(ps: seq<ProgresoTema>, materiaId: int, e: QuizService.Estado): (n: nat)
    ensures n <= |ps|
  {
    if ps == [] then 0
    else
      var last := ps[|ps| - 1];
      CountEstadoEn(ps[..|ps| - 1], materiaId, e) + (if last.materiaId == materiaId && last.estado == e then 1 else 0)
  }

  /** The completed topics of one subject are among all completed topics,
      and completed and in-progress records are counted apart. */
  lemma {:induction false} CountsNested(ps: seq<ProgresoTema>, materiaId: int)
    ensures CountEstadoEn(ps, materiaId, QuizService.Completado) <= CountEstado(ps, QuizService.Completado)
    ensures CountEstado(ps, QuizService.Completado) + CountEstado(ps, QuizService.EnProgreso) <= |ps|
  {
    if ps != [] {
      CountsNested(ps[..|ps| - 1], materiaId);
    }
  }

  /** `progresoMateria`: the rounded percentage of the subject's topics that
      are completed, 0 for a subject without topics. */
  function ProgresoMateria(temasCompletadosMateria: nat, totalTemas: nat): int {
    RoundedPercent(temasCompletadosMateria, totalTemas)
  }

  /** The percentage lies in 0..100, is 100 exactly when every topic is
      completed, and grows with the completed topics. */
  lemma ProgresoMateriaBounds(c: nat, c2: nat, totalTemas: nat)
    requires c <= c2 <= totalTemas
    ensures 0 <= ProgresoMateria(c, totalTemas) <= ProgresoMateria(c2, totalTemas) <= 100
    ensures totalTemas > 0 ==> (ProgresoMateria(totalTemas, totalTemas) == 100 && ProgresoMateria(0, totalTemas) == 0)
  {
    RoundedPercentBounds(c, totalTemas);
    RoundedPercentBounds(c2, totalTemas);
    RoundedPercentMonotone(c, c2, totalTemas);
    RoundedPercentBounds(totalTemas, totalTemas);
    RoundedPercentBounds(0, totalTemas);
  }

  /** `temasNoIniciados`: the topics neither completed nor in progress,
      clamped at 0. */
  function TemasNoIniciados(totalTemas: nat, temasCompletados: nat, temasEnProgreso: nat): int {
    Max(0, totalTemas - temasCompletados - temasEnProgreso)
  }

  /** The three counts partition the topics when the records do not
      outnumber them; otherwise nothing is reported as not started. */
  lemma TemasNoIniciadosMeans(totalTemas: nat, c: nat, e: nat)
    ensures TemasNoIniciados(totalTemas, c, e) >= 0
    ensures c + e <= totalTemas ==> c + e + TemasNoIniciados(totalTemas, c, e) == totalTemas
    ensures c + e >= totalTemas ==> TemasNoIniciados(totalTemas, c, e) == 0
  {
  }
}
