/** The application error hierarchy and the global error middleware
    (errorHandler): every thrown value is classified, in a fixed order, into
    an HTTP status (section 15 of RFC 9110), an error type and a message;
    stack and details are added only in the development environment. */
module ErrorHandler {
  import opened Wrappers

  /** The classes of the `AppError` hierarchy. */
  datatype AppClass = AppErrorClass | NotFoundErrorClass | UnauthorizedErrorClass
                    | ForbiddenErrorClass | BadRequestErrorClass | ConflictErrorClass

  /** What reaches the middleware, by runtime class. Each carries what the
      middleware reads of it: an `AppError` its status and message, a
      `QueryFailedError` the driver's error code, a `SyntaxError` whether the
      body parser attached the offending `body`; any other error is seen only
      through its `name` and `message`. */
  datatype Thrown =
    | App(cls: AppClass, statusCode: int, message: string, stack: Option<string>)
    | QueryFailed(code: Option<string>, message: string, stack: Option<string>)
    | Syntax(hasBody: bool, message: string, stack: Option<string>)
    | Plain(name: string, message: string, stack: Option<string>)

  /** `err.name`: the name of the class for the built-in ones; the `AppError`
      classes do not set it and inherit "Error". */
  function Name(err: Thrown): string {
    match err
    case App(_, _, _, _) => "Error"
    case QueryFailed(_, _, _) => "QueryFailedError"
    case Syntax(_, _, _) => "SyntaxError"
    case Plain(name, _, _) => name
  }

  // ------------------------------------------------------ the constructors

  function NotFoundError(recurso: Option<string>): Thrown {
    App(NotFoundErrorClass, 404, recurso.GetOr("Recurso") + " no encontrado", None)
  }

  function UnauthorizedError(message: Option<string>): Thrown {
    App(UnauthorizedErrorClass, 401, message.GetOr("No autorizado"), None)
  }

  function ForbiddenError(message: Option<string>): Thrown {
    App(ForbiddenErrorClass, 403, message.GetOr("Acceso denegado"), None)
  }

  function BadRequestError(message: Option<string>): Thrown {
    App(BadRequestErrorClass, 400, message.GetOr("Solicitud inv\U{E1}lida"), None)
  }

  function ConflictError(message: Option<string>): Thrown {
    App(ConflictErrorClass, 409, message.GetOr("Conflicto con el estado actual del recurso"), None)
  }

  // ---------------------------------------------------------------- answer

  /** The body the middleware sends; `timestamp` is the clock's ISO text. */
  datatype ErrorResponse = ErrorResponse(
    error: string, message: string, statusCode: int, timestamp: string, path: string,
    stack: Option<string>, details: Option<string>)

  /** The status, type, message and details chosen for an error; `errorType`
      is the type reported for an `AppError` of a given class. */
  function Classify(err: Thrown, development: bool, appErrorType: AppClass -> string): (r: (int, string, string, Option<string>))
    ensures err.App? ==> r == (err.statusCode, appErrorType(err.cls), err.message, None)
    ensures !err.App? ==> r.0 in {400, 401, 409, 500} && (r.0 == 500 <==> r.1 == "InternalServerError")
    ensures !err.App? && r.0 == 500 ==> r.3 == None
  {
    match err
    case App(cls, status, message, _) => (status, appErrorType(cls), message, None)
    case _ =>
      if Name(err) == "ValidationError" then (400, "ValidationError", "Error de validaci\U{F3}n de datos", Some(err.message))
      else match err
        case QueryFailed(code, message, _) =>
          if code == Some("23505") then (409, "DatabaseError", "Ya existe un registro con estos datos", Some("Violaci\U{F3}n de restricci\U{F3}n \U{FA}nica"))
          else if code == Some("23503") then (400, "DatabaseError", "Referencia a un registro inexistente", Some("Violaci\U{F3}n de clave for\U{E1}nea"))
          else if code == Some("23502") then (400, "DatabaseError", "Faltan campos requeridos", Some("Violaci\U{F3}n de campo requerido"))
          else (400, "DatabaseError", "Error en la operaci\U{F3}n de base de datos", if development then Some(message) else None)
        case Syntax(true, _, _) => (400, "SyntaxError", "JSON inv\U{E1}lido en el cuerpo de la solicitud", None)
        case _ =>
          if Name(err) == "JsonWebTokenError" then (401, "AuthenticationError", "Token JWT inv\U{E1}lido", None)
          else if Name(err) == "TokenExpiredError" then (401, "AuthenticationError", "Token JWT expirado", None)
          else (500, "InternalServerError", "Error interno del servidor", None)
  }

  /** The response for an error, given the type reported for `AppError`s. */
  function Respond(err: Thrown, development: bool, path: string, timestamp: string, appErrorType: AppClass -> string): (r: ErrorResponse)
    ensures r.path == path && r.timestamp == timestamp
    ensures var c := Classify(err, development, appErrorType);
      r.statusCode == c.0 && r.error == c.1 && r.message == c.2
    ensures !development ==> r.stack.None? && r.details.None?
    ensures development ==> r.stack == err.stack
    ensures r.details.Some? ==> r.details.value != []
  {
    var (status, errorType, message, details) := Classify(err, development, appErrorType);
    ErrorResponse(errorType, message, status, timestamp, path,
      if development then err.stack else None,
      if development && details.Some? && details.value != [] then details else None)
  }

  /** `err.constructor.name` as written: the `AppError` constructor resets
      the prototype of every instance to `AppError.prototype`, so every
      class of the hierarchy reports "AppError". */
  function ErrorTypeAsWritten(cls: AppClass): string {
    "AppError"
  }

  /** The name of each class of the hierarchy. */
  function ClassName(cls: AppClass): string {
    match cls
    case AppErrorClass => "AppError"
    case NotFoundErrorClass => "NotFoundError"
    case UnauthorizedErrorClass => "UnauthorizedError"
    case ForbiddenErrorClass => "ForbiddenError"
    case BadRequestErrorClass => "BadRequestError"
    case ConflictErrorClass => "ConflictError"
  }

  /** `errorHandler` as written: every error of the hierarchy is reported
      as type "AppError", with its own status and message; other errors are
      answered as by the corrected handler. */
  function ErrorHandlerAsWritten(err: Thrown, development: bool, path: string, timestamp: string): (r: ErrorResponse)
    ensures err.App? ==> r.error == "AppError" && r.statusCode == err.statusCode && r.message == err.message
    ensures !err.App? ==> r == HandleError(err, development, path, timestamp)
  {
    Respond(err, development, path, timestamp, ErrorTypeAsWritten)
  }

  /** `errorHandler` with each error reported under its own class name. */
  function HandleError(err: Thrown, development: bool, path: string, timestamp: string): (r: ErrorResponse)
    ensures err.App? ==> r.error == ClassName(err.cls) && r.statusCode == err.statusCode && r.message == err.message
  {
    Respond(err, development, path, timestamp, ClassName)
  }

  /** A `NotFoundError` is reported as type "AppError" rather than
      "NotFoundError": the subclass name is lost. */
  lemma SubclassNameLost()
    ensures ErrorHandlerAsWritten(NotFoundError(None), false, "/x", "t").error == "AppError"
    ensures HandleError(NotFoundError(None), false, "/x", "t").error == "NotFoundError"
  {
  }

  /** With the correction, each class of the hierarchy is reported under its
      own name, and distinct classes under distinct names. */
  lemma ErrorTypeIsClassName(err: Thrown, development: bool, path: string, timestamp: string)
    requires err.App?
    ensures HandleError(err, development, path, timestamp).error == ClassName(err.cls)
    ensures forall c1, c2 :: ClassName(c1) == ClassName(c2) ==> c1 == c2
  {
  }

  /** An `AppError` always answers with its own status and message, and
      with the type `t` gives its class, whatever `t` is: so both as written
      and corrected. */
  lemma AppErrorStatus(err: Thrown, development: bool, path: string, timestamp: string, t: AppClass -> string)
    requires err.App?
    ensures Respond(err, development, path, timestamp, t).statusCode == err.statusCode
    ensures Respond(err, development, path, timestamp, t).message == err.message
    ensures Respond(err, development, path, timestamp, t).error == t(err.cls)
  {
  }

  /** Each predefined error answers with its fixed status. */
  lemma PredefinedStatuses(arg: Option<string>)
    ensures NotFoundError(arg).statusCode == 404 && UnauthorizedError(arg).statusCode == 401
    ensures ForbiddenError(arg).statusCode == 403 && BadRequestError(arg).statusCode == 400
    ensures ConflictError(arg).statusCode == 409
  {
  }

  /** Every error outside the hierarchy is a client error (400, 401 or 409)
      when it is recognised, and 500 "InternalServerError" when it is not. */
  lemma StatusClassification(err: Thrown, development: bool, path: string, timestamp: string, t: AppClass -> string)
    requires !err.App?
    ensures var r := Respond(err, development, path, timestamp, t);
      && r.statusCode in {400, 401, 409, 500}
      && (r.statusCode == 500 <==> r.error == "InternalServerError")
  {
  }

  /** An error is unrecognised exactly when none of the branches claims it. */
  lemma UnrecognisedMeans(err: Thrown, development: bool, path: string, timestamp: string, t: AppClass -> string)
    requires !err.App?
    ensures Respond(err, development, path, timestamp, t).statusCode == 500 <==>
      (&& Name(err) != "ValidationError" && !err.QueryFailed? && !(err.Syntax? && err.hasBody)
       && Name(err) != "JsonWebTokenError" && Name(err) != "TokenExpiredError")
  {
  }

  /** A unique violation is the only 409, token errors the only 401. */
  lemma ConflictAndTokenStatuses(err: Thrown, development: bool, path: string, timestamp: string, t: AppClass -> string)
    requires !err.App?
    ensures Respond(err, development, path, timestamp, t).statusCode == 409 <==>
      (Name(err) != "ValidationError" && err.QueryFailed? && err.code == Some("23505"))
    ensures Respond(err, development, path, timestamp, t).statusCode == 401 <==>
      (Name(err) == "JsonWebTokenError" || Name(err) == "TokenExpiredError")
  {
  }

  /** Outside development, neither the stack nor any details leave the
      server; in development the stack is always passed through. */
  lemma DetailsOnlyInDevelopment(err: Thrown, path: string, timestamp: string, t: AppClass -> string)
    ensures Respond(err, false, path, timestamp, t).stack.None?
    ensures Respond(err, false, path, timestamp, t).details.None?
    ensures Respond(err, true, path, timestamp, t).stack == err.stack
  {
  }
}
