/**
 * The request schemas: login, user, sale and status change. A schema walks
 * the fields of a JSON object in declaration order and collects one issue
 * per failing check, as a `safeParse` does; the parse succeeds exactly when
 * no issue is collected. The email-format check is a parameter `isEmail`.
 */
module Validations {
  import opened Wrappers

  /** A JSON value as it arrives in a request body. */
  datatype Json =
    | JNull
    | JBool(b: bool)
    | JNum(n: real)
    | JStr(s: string)
    | JArray(items: seq<Json>)
    | JObject(fields: map<string, Json>)

  /** The value of a key of a JSON object; None when the key is absent (undefined). */
  function Get(obj: map<string, Json>, key: string): Option<Json> {
    if key in obj then Some(obj[key]) else None
  }

  /** The type name a type mismatch reports. */
  function TypeName(j: Json): string {
    match j
    case JNull => "null"
    case JBool(_) => "boolean"
    case JNum(_) => "number"
    case JStr(_) => "string"
    case JArray(_) => "array"
    case JObject(_) => "object"
  }

  datatype Issue = Issue(path: string, message: string)

  datatype Parsed<T> = Valid(value: T) | Invalid(issues: seq<Issue>)

  /** What a field of type `expected` reports when the key is absent or has another type. */
  function TypeIssue(path: string, f: Option<Json>, expected: string): seq<Issue> {
    match f
    case None => [Issue(path, "Required")]
    case Some(j) => [Issue(path, "Expected " + expected + ", received " + TypeName(j))]
  }

  /** One check: no issue when it passes, its message when it fails. */
  function Check(ok: bool, path: string, msg: string): (r: seq<Issue>)
    ensures r == [] <==> ok
  {
    if ok then [] else [Issue(path, msg)]
  }

  /**
   * A required string field: a type issue when the key is absent or not a
   * string, otherwise the issues of every check on the string.
   */
  function StringField(path: string, f: Option<Json>, checks: string -> seq<Issue>): (r: seq<Issue>)
    ensures r == [] <==> f.Some? && f.value.JStr? && checks(f.value.s) == []
  {
    if f.Some? && f.value.JStr? then checks(f.value.s) else TypeIssue(path, f, "string")
  }

  /** An optional (`.optional()`) string field: absent is accepted, null is not. */
  function OptionalStringField(path: string, f: Option<Json>, checks: string -> seq<Issue>): (r: seq<Issue>)
    ensures r == [] <==> f.None? || (f.value.JStr? && checks(f.value.s) == [])
  {
    if f.None? then [] else StringField(path, f, checks)
  }

  /** A required number field. */
  function NumberField(path: string, f: Option<Json>, checks: real -> seq<Issue>): (r: seq<Issue>)
    ensures r == [] <==> f.Some? && f.value.JNum? && checks(f.value.n) == []
  {
    if f.Some? && f.value.JNum? then checks(f.value.n) else TypeIssue(path, f, "number")
  }

  /** A `.optional().nullable()` number field: absent and null are both accepted. */
  function NullishNumberField(path: string, f: Option<Json>, checks: real -> seq<Issue>): (r: seq<Issue>)
    ensures r == [] <==> f.None? || f.value.JNull? || (f.value.JNum? && checks(f.value.n) == [])
  {
    if f.None? || f.value.JNull? then [] else NumberField(path, f, checks)
  }

  predicate IsInteger(x: real) {
    x.Floor as real == x
  }

  /** `z.number().int().positive(msg)`. */
  function IdIssues(path: string, x: real, msg: string): (r: seq<Issue>)
    ensures r == [] <==> IsInteger(x) && x > 0.0
  {
    Check(IsInteger(x), path, "Expected integer, received float") + Check(x > 0.0, path, msg)
  }

  const DefaultPositiveMessage := "Number must be greater than 0"

  /** What a body that is not a JSON object reports. */
  function ObjectIssue(body: Json): seq<Issue> {
    [Issue("", "Expected object, received " + TypeName(body))]
  }

  // ---------------------------------------------------------------- login

  datatype LoginInput = LoginInput(email: string, password: string, captcha: string)

  /** The email rules shared by the login and user schemas. */
  function EmailIssues(s: string, isEmail: string -> bool): (r: seq<Issue>)
    ensures r == [] <==> 1 <= |s| <= 50 && isEmail(s)
  {
    Check(|s| >= 1, "email", "El correo es obligatorio")
    + Check(|s| <= 50, "email", "El correo no puede exceder 50 caracteres")
    + Check(isEmail(s), "email", "Correo electrónico inválido")
  }

  function LoginPasswordIssues(s: string): (r: seq<Issue>)
    ensures r == [] <==> 1 <= |s| <= 20
  {
    Check(|s| >= 1, "password", "La contraseña es obligatoria")
    + Check(|s| <= 20, "password", "La contraseña no puede exceder 20 caracteres")
  }

  function CaptchaIssues(s: string): (r: seq<Issue>)
    ensures r == [] <==> |s| >= 1
  {
    Check(|s| >= 1, "captcha", "El captcha es obligatorio")
  }

  function LoginIssues(obj: map<string, Json>, isEmail: string -> bool): (r: seq<Issue>)
    ensures r == [] <==>
      && "email" in obj && obj["email"].JStr? && 1 <= |obj["email"].s| <= 50 && isEmail(obj["email"].s)
      && "password" in obj && obj["password"].JStr? && 1 <= |obj["password"].s| <= 20
      && "captcha" in obj && obj["captcha"].JStr? && |obj["captcha"].s| >= 1
  {
    var email := StringField("email", Get(obj, "email"), s => EmailIssues(s, isEmail));
    var password := StringField("password", Get(obj, "password"), LoginPasswordIssues);
    var captcha := StringField("captcha", Get(obj, "captcha"), CaptchaIssues);
    email + password + captcha
  }

  /** `loginSchema.safeParse`. */
  function ParseLogin(body: Json, isEmail: string -> bool): (r: Parsed<LoginInput>)
    ensures r.Valid? <==>
      && body.JObject?
      && "email" in body.fields && body.fields["email"].JStr?
      && 1 <= |body.fields["email"].s| <= 50 && isEmail(body.fields["email"].s)
      && "password" in body.fields && body.fields["password"].JStr?
      && 1 <= |body.fields["password"].s| <= 20
      && "captcha" in body.fields && body.fields["captcha"].JStr?
      && |body.fields["captcha"].s| >= 1
    ensures r.Valid? ==>
      r.value == LoginInput(body.fields["email"].s, body.fields["password"].s, body.fields["captcha"].s)
  {
    if !body.JObject? then Invalid(ObjectIssue(body))
    else
      var issues := LoginIssues(body.fields, isEmail);
      if issues != [] then Invalid(issues)
      else
        var obj := body.fields;
        Valid(LoginInput(obj["email"].s, obj["password"].s, obj["captcha"].s))
  }

  // ---------------------------------------------------------------- users

  datatype UsuarioInput = UsuarioInput(
    nombre: string,
    email: string,
    password: Option<string>,
    rolId: int,
    activo: Option<bool>)

  function NombreIssues(s: string): (r: seq<Issue>)
    ensures r == [] <==> 1 <= |s| <= 50
  {
    Check(|s| >= 1, "nombre", "El nombre es obligatorio")
    + Check(|s| <= 50, "nombre", "El nombre no puede exceder 50 caracteres")
  }

  function UsuarioPasswordIssues(s: string): (r: seq<Issue>)
    ensures r == [] <==> 6 <= |s| <= 20
  {
    Check(|s| >= 6, "password", "La contraseña debe tener al menos 6 caracteres")
    + Check(|s| <= 20, "password", "La contraseña no puede exceder 20 caracteres")
  }

  function UsuarioIssues(obj: map<string, Json>, isEmail: string -> bool): (r: seq<Issue>)
    ensures r == [] <==>
      && "nombre" in obj && obj["nombre"].JStr? && 1 <= |obj["nombre"].s| <= 50
      && "email" in obj && obj["email"].JStr? && 1 <= |obj["email"].s| <= 50 && isEmail(obj["email"].s)
      && ("password" in obj ==> obj["password"].JStr? && 6 <= |obj["password"].s| <= 20)
      && "rol_id" in obj && obj["rol_id"].JNum? && IsInteger(obj["rol_id"].n) && obj["rol_id"].n > 0.0
      && ("activo" in obj ==> obj["activo"].JBool?)
  {
    var nombre := StringField("nombre", Get(obj, "nombre"), NombreIssues);
    var email := StringField("email", Get(obj, "email"), s => EmailIssues(s, isEmail));
    var password := OptionalStringField("password", Get(obj, "password"), UsuarioPasswordIssues);
    var rol := NumberField("rol_id", Get(obj, "rol_id"), x => IdIssues("rol_id", x, "Debe seleccionar un rol"));
    var activo := if "activo" !in obj || obj["activo"].JBool? then [] else TypeIssue("activo", Get(obj, "activo"), "boolean");
    assert |nombre + email + password + rol + activo| == |nombre| + |email| + |password| + |rol| + |activo|;
    nombre + email + password + rol + activo
  }

  /** `usuarioSchema.safeParse`. */
  function ParseUsuario(body: Json, isEmail: string -> bool): (r: Parsed<UsuarioInput>)
    ensures r.Valid? <==>
      && body.JObject?
      && "nombre" in body.fields && body.fields["nombre"].JStr? && 1 <= |body.fields["nombre"].s| <= 50
      && "email" in body.fields && body.fields["email"].JStr?
      && 1 <= |body.fields["email"].s| <= 50 && isEmail(body.fields["email"].s)
      && ("password" in body.fields ==>
            body.fields["password"].JStr? && 6 <= |body.fields["password"].s| <= 20)
      && "rol_id" in body.fields && body.fields["rol_id"].JNum?
      && IsInteger(body.fields["rol_id"].n) && body.fields["rol_id"].n > 0.0
      && ("activo" in body.fields ==> body.fields["activo"].JBool?)
    ensures r.Valid? ==>
      && r.value.nombre == body.fields["nombre"].s
      && r.value.email == body.fields["email"].s
      && r.value.rolId > 0 && r.value.rolId as real == body.fields["rol_id"].n
      && r.value.password == (if "password" in body.fields then Some(body.fields["password"].s) else None)
      && r.value.activo == (if "activo" in body.fields then Some(body.fields["activo"].b) else None)
  {
    if !body.JObject? then Invalid(ObjectIssue(body))
    else
      var obj := body.fields;
      var issues := UsuarioIssues(obj, isEmail);
      if issues != [] then Invalid(issues)
      else
        var password := if "password" in obj then Some(obj["password"].s) else None;
        var activo := if "activo" in obj then Some(obj["activo"].b) else None;
        Valid(UsuarioInput(obj["nombre"].s, obj["email"].s, password, obj["rol_id"].n.Floor, activo))
  }

  // ---------------------------------------------------------------- sales

  /** A `.optional().nullable()` value: undefined, null or a value. */
  datatype Nullish<T> = Undefined | Null | Value(v: T) {
    /** `x ?? null` */
    function OrNull(): Option<T> {
      if Value? then Some(v) else None
    }
  }

  datatype VentaInput = VentaInput(
    productoId: int,
    cupoSolicitado: real,
    franquiciaId: Nullish<int>,
    tasa: Nullish<real>)

  const MaxCupo: real := 999999999999.99
  const MaxTasa: real := 99.99

  function CupoIssues(x: real): (r: seq<Issue>)
    ensures r == [] <==> 0.0 < x <= MaxCupo
  {
    Check(x > 0.0, "cupo_solicitado", "El cupo debe ser mayor a 0")
    + Check(x <= MaxCupo, "cupo_solicitado", "El cupo excede el límite permitido")
  }

  function TasaIssues(x: real): (r: seq<Issue>)
    ensures r == [] <==> 0.0 <= x <= MaxTasa
  {
    Check(x >= 0.0, "tasa", "La tasa no puede ser negativa")
    + Check(x <= MaxTasa, "tasa", "La tasa no puede exceder 99.99")
  }

  function VentaIssues(obj: map<string, Json>): (r: seq<Issue>)
    ensures r == [] <==>
      && "producto_id" in obj && obj["producto_id"].JNum?
      && IsInteger(obj["producto_id"].n) && obj["producto_id"].n > 0.0
      && "cupo_solicitado" in obj && obj["cupo_solicitado"].JNum?
      && 0.0 < obj["cupo_solicitado"].n <= MaxCupo
      && ("franquicia_id" in obj ==>
            obj["franquicia_id"].JNull?
            || (obj["franquicia_id"].JNum? && IsInteger(obj["franquicia_id"].n) && obj["franquicia_id"].n > 0.0))
      && ("tasa" in obj ==> obj["tasa"].JNull? || (obj["tasa"].JNum? && 0.0 <= obj["tasa"].n <= MaxTasa))
  {
    var producto := NumberField("producto_id", Get(obj, "producto_id"),
                                x => IdIssues("producto_id", x, "Debe seleccionar un producto"));
    var cupo := NumberField("cupo_solicitado", Get(obj, "cupo_solicitado"), CupoIssues);
    var franquicia := NullishNumberField("franquicia_id", Get(obj, "franquicia_id"),
                                         x => IdIssues("franquicia_id", x, DefaultPositiveMessage));
    var tasa := NullishNumberField("tasa", Get(obj, "tasa"), TasaIssues);
    producto + cupo + franquicia + tasa
  }

  /**
   * The object-level refinement of the sale schema. It accepts every
   * object: which fields a product needs is checked by the route, against
   * the product row.
   */
  predicate VentaRefinement(data: VentaInput) {
    true
  }

  function NullishOf(f: Option<Json>): Nullish<real> {
    if f.None? then Undefined
    else if f.value.JNum? then Value(f.value.n)
    else Null
  }

  /** `ventaSchema.safeParse`. */
  function ParseVenta(body: Json): (r: Parsed<VentaInput>)
    ensures r.Valid? <==>
      && body.JObject?
      && "producto_id" in body.fields && body.fields["producto_id"].JNum?
      && IsInteger(body.fields["producto_id"].n) && body.fields["producto_id"].n > 0.0
      && "cupo_solicitado" in body.fields && body.fields["cupo_solicitado"].JNum?
      && 0.0 < body.fields["cupo_solicitado"].n <= MaxCupo
      && ("franquicia_id" in body.fields ==>
            body.fields["franquicia_id"].JNull?
            || (body.fields["franquicia_id"].JNum?
                && IsInteger(body.fields["franquicia_id"].n) && body.fields["franquicia_id"].n > 0.0))
      && ("tasa" in body.fields ==>
            body.fields["tasa"].JNull?
            || (body.fields["tasa"].JNum? && 0.0 <= body.fields["tasa"].n <= MaxTasa))
    ensures r.Valid? ==>
      && r.value.productoId > 0
      && 0.0 < r.value.cupoSolicitado <= MaxCupo
      && (r.value.franquiciaId.Value? ==> r.value.franquiciaId.v > 0)
      && (r.value.tasa.Value? ==> 0.0 <= r.value.tasa.v <= MaxTasa)
      && r.value.productoId as real == body.fields["producto_id"].n
      && r.value.cupoSolicitado == body.fields["cupo_solicitado"].n
      && (r.value.franquiciaId.Undefined? <==> "franquicia_id" !in body.fields)
      && (r.value.franquiciaId.Null? <==> "franquicia_id" in body.fields && body.fields["franquicia_id"].JNull?)
      && (r.value.franquiciaId.Value? ==> r.value.franquiciaId.v as real == body.fields["franquicia_id"].n)
      && (r.value.tasa.Undefined? <==> "tasa" !in body.fields)
      && (r.value.tasa.Null? <==> "tasa" in body.fields && body.fields["tasa"].JNull?)
      && (r.value.tasa.Value? ==> r.value.tasa.v == body.fields["tasa"].n)
  {
    if !body.JObject? then Invalid(ObjectIssue(body))
    else
      var obj := body.fields;
      var issues := VentaIssues(obj);
      if issues != [] then Invalid(issues)
      else
        var f := NullishOf(Get(obj, "franquicia_id"));
        var franquicia: Nullish<int> := match f
          case Undefined => Undefined
          case Null => Null
          case Value(x) => Value(x.Floor);
        var data := VentaInput(obj["producto_id"].n.Floor, obj["cupo_solicitado"].n,
                               franquicia, NullishOf(Get(obj, "tasa")));
        if VentaRefinement(data) then Valid(data)
        else Invalid([Issue("", "Validación de campos condicionales")])
  }

  /**
   * The refinement never rejects, so nothing product-specific is checked
   * here: a payload with neither franchise nor rate passes whenever its
   * product id and amount are in range, whatever the product requires.
   */
  lemma VentaSchemaIgnoresProductRules(productoId: real, cupo: real)
    requires IsInteger(productoId) && productoId > 0.0 && 0.0 < cupo <= MaxCupo
    ensures var r := ParseVenta(JObject(map["producto_id" := JNum(productoId), "cupo_solicitado" := JNum(cupo)]));
      r.Valid? && r.value.franquiciaId.Undefined? && r.value.tasa.Undefined?
      && r.value.cupoSolicitado == cupo && r.value.productoId as real == productoId
  {
  }

  // ---------------------------------------------------------------- status change

  datatype CambioEstadoInput = CambioEstadoInput(ventaId: int, estadoNuevoId: int, comentario: Option<string>)

  function ComentarioIssues(s: string): (r: seq<Issue>)
    ensures r == [] <==> |s| <= 500
  {
    Check(|s| <= 500, "comentario", "String must contain at most 500 character(s)")
  }

  function CambioEstadoIssues(obj: map<string, Json>): (r: seq<Issue>)
    ensures r == [] <==>
      && "venta_id" in obj && obj["venta_id"].JNum? && IsInteger(obj["venta_id"].n) && obj["venta_id"].n > 0.0
      && "estado_nuevo_id" in obj && obj["estado_nuevo_id"].JNum?
      && IsInteger(obj["estado_nuevo_id"].n) && obj["estado_nuevo_id"].n > 0.0
      && ("comentario" in obj ==> obj["comentario"].JStr? && |obj["comentario"].s| <= 500)
  {
    var venta := NumberField("venta_id", Get(obj, "venta_id"), x => IdIssues("venta_id", x, DefaultPositiveMessage));
    var estado := NumberField("estado_nuevo_id", Get(obj, "estado_nuevo_id"),
                              x => IdIssues("estado_nuevo_id", x, DefaultPositiveMessage));
    var comentario := OptionalStringField("comentario", Get(obj, "comentario"), ComentarioIssues);
    venta + estado + comentario
  }

  /** `cambioEstadoSchema.safeParse`. */
  function ParseCambioEstado(body: Json): (r: Parsed<CambioEstadoInput>)
    ensures r.Valid? <==>
      && body.JObject?
      && "venta_id" in body.fields && body.fields["venta_id"].JNum?
      && IsInteger(body.fields["venta_id"].n) && body.fields["venta_id"].n > 0.0
      && "estado_nuevo_id" in body.fields && body.fields["estado_nuevo_id"].JNum?
      && IsInteger(body.fields["estado_nuevo_id"].n) && body.fields["estado_nuevo_id"].n > 0.0
      && ("comentario" in body.fields ==>
            body.fields["comentario"].JStr? && |body.fields["comentario"].s| <= 500)
    ensures r.Valid? ==>
      && r.value.ventaId > 0 && r.value.ventaId as real == body.fields["venta_id"].n
      && r.value.estadoNuevoId > 0 && r.value.estadoNuevoId as real == body.fields["estado_nuevo_id"].n
      && r.value.comentario == (if "comentario" in body.fields then Some(body.fields["comentario"].s) else None)
    ensures r.Valid? && r.value.comentario.Some? ==> |r.value.comentario.value| <= 500
  {
    if !body.JObject? then Invalid(ObjectIssue(body))
    else
      var obj := body.fields;
      var issues := CambioEstadoIssues(obj);
      if issues != [] then Invalid(issues)
      else
        var comentario := if "comentario" in obj then Some(obj["comentario"].s) else None;
        Valid(CambioEstadoInput(obj["venta_id"].n.Floor, obj["estado_nuevo_id"].n.Floor, comentario))
  }
}
