/**
 * The login route. It runs its checks in a fixed order: the body must
 * parse as JSON and pass the login schema (400), the submitted captcha
 * must equal the answer decoded from `captchaToken` (400), an active user
 * with that email must exist and the password must match (401), and then
 * a token is issued for the user's claims. Anything that throws is a 500.
 * Password comparison and token signing are parameters.
 */
module Login {
  import opened Wrappers
  import opened Db
  import opened Validations
  import opened Authz
  import Captcha
  import Utf8

  /** A row of the user query: the user's columns and `r.nombre AS rol_nombre`. */
  datatype UsuarioRow = UsuarioRow(usuario: Usuario, rolNombre: string)

  /** The user as the response shows it, without the password. */
  datatype UsuarioPublico = UsuarioPublico(id: int, nombre: string, email: string, rol: string, rolId: int)

  datatype LoginResponse =
    | Ok(token: string, usuario: UsuarioPublico)
    | InvalidData(details: seq<Issue>)
    | WrongCaptcha
    | BadCredentials
    | ServerError

  function Status(r: LoginResponse): int {
    match r
    case Ok(_, _) => 200
    case InvalidData(_) => 400
    case WrongCaptcha => 400
    case BadCredentials => 401
    case ServerError => 500
  }

  /** One row per role with the user's role id (`INNER JOIN roles r ON u.rol_id = r.id`). */
  function RoleRows(u: Usuario, roles: seq<Rol>): (rows: seq<UsuarioRow>)
    ensures forall i :: 0 <= i < |rows| ==> rows[i].usuario == u
    ensures forall i :: 0 <= i < |rows| ==> exists r :: r in roles && r.id == u.rolId && rows[i].rolNombre == r.nombre
    ensures forall r :: r in roles && r.id == u.rolId ==> UsuarioRow(u, r.nombre) in rows
  {
    if roles == [] then []
    else
      var rest := RoleRows(u, roles[1..]);
      if roles[0].id == u.rolId then [UsuarioRow(u, roles[0].nombre)] + rest else rest
  }

  /** The user query: active users with the given email, joined with their role. */
  function ActiveUsers(usuarios: seq<Usuario>, roles: seq<Rol>, email: string): (rows: seq<UsuarioRow>)
    ensures forall i :: 0 <= i < |rows| ==>
      var u := rows[i].usuario;
      u in usuarios && u.email == email && u.activo
      && exists r :: r in roles && r.id == u.rolId && rows[i].rolNombre == r.nombre
    ensures forall u, r :: u in usuarios && u.email == email && u.activo && r in roles && r.id == u.rolId ==>
      UsuarioRow(u, r.nombre) in rows
  {
    if usuarios == [] then []
    else
      var u := usuarios[0];
      (if u.email == email && u.activo then RoleRows(u, roles) else []) + ActiveUsers(usuarios[1..], roles, email)
  }

  /** JavaScript falsiness of a JSON value. */
  predicate Falsy(j: Json) {
    j == JNull || j == JBool(false) || j == JNum(0.0) || j == JStr("")
  }

  /** A number truncated toward zero, as `ToUint8` and `Math.trunc` take it. */
  function Trunc(x: real): int {
    if x >= 0.0 then x.Floor else -((-x).Floor)
  }

  /** `ToUint8`: what a `Uint8Array` stores for a number, its truncation modulo 256. */
  function ToUint8(x: real): (b: Utf8.byte)
    ensures (b as int - Trunc(x)) % 256 == 0
    ensures IsInteger(x) && 0.0 <= x < 256.0 ==> b as real == x
  {
    (Trunc(x) % 256) as Utf8.byte
  }

  /** The bytes of an array whose elements are all numbers, element by element; None otherwise. */
  function NumberBytes(items: seq<Json>): (r: Option<seq<Utf8.byte>>)
    ensures r.Some? <==> forall i :: 0 <= i < |items| ==> items[i].JNum?
    ensures r.Some? ==> |r.value| == |items| && forall i :: 0 <= i < |items| ==> r.value[i] == ToUint8(items[i].n)
  {
    if items == [] then Some([])
    else if !items[0].JNum? then None
    else match NumberBytes(items[1..])
      case None => None
      case Some(rest) => Some([ToUint8(items[0].n)] + rest)
  }

  /**
   * The bytes `Buffer.from` reads out of a truthy JSON value that is not a
   * string: an array of numbers is read element by element; an object whose
   * `length` is not a number gives no bytes; an object `{"type": "Buffer",
   * "data": [...]}` is read from `data`. A number, `true` and any other
   * object make it throw (None).
   */
  function TokenBytes(j: Json): (r: Option<seq<Utf8.byte>>)
    ensures j.JArray? ==> r == NumberBytes(j.items)
    ensures j.JObject? && "valueOf" !in j.fields && "length" in j.fields && !j.fields["length"].JNum? ==> r == Some([])
    ensures j.JObject? && "valueOf" !in j.fields && "length" !in j.fields
            && "type" in j.fields && j.fields["type"] == JStr("Buffer")
            && "data" in j.fields && j.fields["data"].JArray? ==>
      r == NumberBytes(j.fields["data"].items)
    ensures j.JNull? || j.JBool? || j.JNum? || j.JStr? ==> r.None?
  {
    match j
    case JArray(items) => NumberBytes(items)
    case JObject(f) =>
      if "valueOf" in f || ("length" in f && f["length"].JNum?) then None
      else if "length" in f then Some([])
      else if "type" in f && f["type"] == JStr("Buffer") && "data" in f && f["data"].JArray? then
        NumberBytes(f["data"].items)
      else None
    case _ => None
  }

  /**
   * `Buffer.from(body.captchaToken || "", "base64").toString()`. A missing
   * or falsy token decodes as the empty string; a string is Base64-decoded;
   * an array or array-like object is taken as the bytes themselves; any
   * other value makes `Buffer.from` throw (None).
   */
  function CaptchaAnswer(fields: map<string, Json>): (r: Option<string>)
    ensures ("captchaToken" !in fields || Falsy(fields["captchaToken"])) ==> r == Some("")
    ensures "captchaToken" in fields && fields["captchaToken"].JStr? ==>
      r == Some(Captcha.AnswerOf(fields["captchaToken"].s))
    ensures "captchaToken" in fields && !Falsy(fields["captchaToken"]) && !fields["captchaToken"].JStr? ==>
      r == (if TokenBytes(fields["captchaToken"]).Some?
            then Some(Utf8.Decode(TokenBytes(fields["captchaToken"]).value)) else None)
  {
    if "captchaToken" !in fields || Falsy(fields["captchaToken"]) then
      Captcha.AnswerOfEmpty();
      Some(Captcha.AnswerOf(""))
    else if fields["captchaToken"].JStr? then Some(Captcha.AnswerOf(fields["captchaToken"].s))
    else match TokenBytes(fields["captchaToken"])
      case None => None
      case Some(bs) => Some(Utf8.Decode(bs))
  }

  /** Where the checks that precede the store lookup leave a request. */
  datatype Step = Stop(response: LoginResponse) | Proceed(input: LoginInput)

  /** The body, schema and captcha checks, none of which reads the store. */
  function Checks(body: Option<Json>, isEmail: string -> bool): (s: Step)
    ensures body.None? ==> s == Stop(ServerError)
    ensures body.Some? && ParseLogin(body.value, isEmail).Invalid? ==>
      s == Stop(InvalidData(ParseLogin(body.value, isEmail).issues))
    ensures s.Proceed? <==>
      body.Some? && ParseLogin(body.value, isEmail).Valid?
      && CaptchaAnswer(body.value.fields) == Some(ParseLogin(body.value, isEmail).value.captcha)
    ensures body.Some? && ParseLogin(body.value, isEmail).Valid? ==>
      var answer := CaptchaAnswer(body.value.fields);
      && (answer.None? ==> s == Stop(ServerError))
      && (answer.Some? && answer.value != ParseLogin(body.value, isEmail).value.captcha ==> s == Stop(WrongCaptcha))
    ensures s.Proceed? ==> s.input == ParseLogin(body.value, isEmail).value
    ensures s.Stop? ==> s.response.InvalidData? || s.response == WrongCaptcha || s.response == ServerError
  {
    if body.None? then Stop(ServerError)
    else
      match ParseLogin(body.value, isEmail)
      case Invalid(issues) => Stop(InvalidData(issues))
      case Valid(input) =>
        match CaptchaAnswer(body.value.fields)
        case None => Stop(ServerError)
        case Some(answer) => if input.captcha != answer then Stop(WrongCaptcha) else Proceed(input)
  }

  /** The claims the token is issued for: exactly these four, from the user row. */
  function ClaimsOf(row: UsuarioRow): Claims {
    Claims(row.usuario.id, row.usuario.email, row.usuario.rolId, row.rolNombre)
  }

  function PublicOf(row: UsuarioRow): UsuarioPublico {
    UsuarioPublico(row.usuario.id, row.usuario.nombre, row.usuario.email, row.rolNombre, row.usuario.rolId)
  }

  /** The password check and token issuance for the user row found. */
  function Authenticate(row: UsuarioRow, password: string, comparePassword: (string, string) -> bool,
                        generateToken: Claims -> string): (r: LoginResponse)
    ensures r.Ok? <==> comparePassword(password, row.usuario.password)
    ensures !r.Ok? ==> r == BadCredentials
    ensures r.Ok? ==> r.token == generateToken(ClaimsOf(row)) && r.usuario == PublicOf(row)
  {
    if !comparePassword(password, row.usuario.password) then BadCredentials
    else Ok(generateToken(ClaimsOf(row)), PublicOf(row))
  }

  /**
   * POST /api/auth/login. `body` is None when the request body is not JSON.
   * An unknown email and a wrong password give the same 401.
   */
  function Post(body: Option<Json>, t: Tables, isEmail: string -> bool,
                comparePassword: (string, string) -> bool, generateToken: Claims -> string): (r: LoginResponse)
    ensures Checks(body, isEmail).Stop? ==> r == Checks(body, isEmail).response
    ensures r == BadCredentials <==>
      Checks(body, isEmail).Proceed?
      && var input := Checks(body, isEmail).input;
         var rows := ActiveUsers(t.usuarios, t.roles, input.email);
         rows == [] || !comparePassword(input.password, rows[0].usuario.password)
    ensures r.Ok? ==>
      Checks(body, isEmail).Proceed?
      && var input := Checks(body, isEmail).input;
         var rows := ActiveUsers(t.usuarios, t.roles, input.email);
         rows != [] && comparePassword(input.password, rows[0].usuario.password)
         && r.token == generateToken(ClaimsOf(rows[0])) && r.usuario == PublicOf(rows[0])
    ensures
      (Checks(body, isEmail).Proceed?
       && var input := Checks(body, isEmail).input;
          var rows := ActiveUsers(t.usuarios, t.roles, input.email);
          rows != [] && comparePassword(input.password, rows[0].usuario.password))
      ==> r.Ok?
  {
    match Checks(body, isEmail)
    case Stop(response) => response
    case Proceed(input) =>
      var rows := ActiveUsers(t.usuarios, t.roles, input.email);
      if rows == [] then BadCredentials
      else Authenticate(rows[0], input.password, comparePassword, generateToken)
  }

  /** `sql.query` resolves to the pair `[rows, fields]`, so the route's `usuarios.length` is always 2. */
  const QueryResultLength: nat := 2

  /**
   * POST as written: `usuarios.length === 0` tests the pair rather than its
   * rows, so an unknown email reaches `usuarios[0][0].password`, which
   * throws on `undefined` and ends in the 500 branch.
   */
  function PostAsWritten(body: Option<Json>, t: Tables, isEmail: string -> bool,
                         comparePassword: (string, string) -> bool, generateToken: Claims -> string): (r: LoginResponse)
    ensures r != BadCredentials || Checks(body, isEmail).Proceed?
  {
    match Checks(body, isEmail)
    case Stop(response) => response
    case Proceed(input) =>
      var rows := ActiveUsers(t.usuarios, t.roles, input.email);
      if QueryResultLength == 0 then BadCredentials
      else if rows == [] then ServerError
      else Authenticate(rows[0], input.password, comparePassword, generateToken)
  }

  /** An unknown email: the route as written answers 500 where 401 "Credenciales inválidas" is meant. */
  lemma UnknownUserAsWritten(body: Option<Json>, t: Tables, isEmail: string -> bool,
                             comparePassword: (string, string) -> bool, generateToken: Claims -> string)
    requires Checks(body, isEmail).Proceed?
    requires ActiveUsers(t.usuarios, t.roles, Checks(body, isEmail).input.email) == []
    ensures PostAsWritten(body, t, isEmail, comparePassword, generateToken) == ServerError
    ensures Post(body, t, isEmail, comparePassword, generateToken) == BadCredentials
  {
  }

  /** Apart from the unknown-email case the route as written and the corrected one agree. */
  lemma AsWrittenAgreesOtherwise(body: Option<Json>, t: Tables, isEmail: string -> bool,
                                 comparePassword: (string, string) -> bool, generateToken: Claims -> string)
    requires Checks(body, isEmail).Stop? || ActiveUsers(t.usuarios, t.roles, Checks(body, isEmail).input.email) != []
    ensures PostAsWritten(body, t, isEmail, comparePassword, generateToken)
         == Post(body, t, isEmail, comparePassword, generateToken)
  {
  }

  /**
   * The schema and captcha checks come before the store and the password
   * check: when they stop a request, the response is the same whatever the
   * tables, the stored passwords and the token service are.
   */
  lemma ChecksBeforeStore(body: Option<Json>, isEmail: string -> bool, t1: Tables, t2: Tables,
                          cmp1: (string, string) -> bool, cmp2: (string, string) -> bool,
                          gen1: Claims -> string, gen2: Claims -> string)
    requires Checks(body, isEmail).Stop?
    ensures Post(body, t1, isEmail, cmp1, gen1) == Post(body, t2, isEmail, cmp2, gen2)
    ensures Status(Post(body, t1, isEmail, cmp1, gen1)) in {400, 500}
  {
  }

  /** A body without `captchaToken` never passes the captcha check, because the captcha is non-empty. */
  lemma MissingTokenFails(fields: map<string, Json>, t: Tables, isEmail: string -> bool,
                          comparePassword: (string, string) -> bool, generateToken: Claims -> string)
    requires ParseLogin(JObject(fields), isEmail).Valid?
    requires "captchaToken" !in fields
    ensures Post(Some(JObject(fields)), t, isEmail, comparePassword, generateToken) == WrongCaptcha
  {
    var input := ParseLogin(JObject(fields), isEmail).value;
    assert |input.captcha| >= 1;
    assert CaptchaAnswer(fields) == Some("");
    assert Checks(Some(JObject(fields)), isEmail) == Stop(WrongCaptcha);
  }

  /**
   * Submitting the answer together with the token the captcha route issued
   * for it passes the captcha check: the request goes on to the store.
   */
  lemma IssuedTokenPasses(fields: map<string, Json>, answer: string, isEmail: string -> bool)
    requires ParseLogin(JObject(fields), isEmail).Valid?
    requires fields["captcha"] == JStr(answer)
    requires "captchaToken" in fields && fields["captchaToken"] == JStr(Captcha.Token(answer))
    ensures Checks(Some(JObject(fields)), isEmail).Proceed?
  {
    Captcha.TokenRoundTrip(answer);
    assert CaptchaAnswer(fields) == Some(answer);
  }

  /** A wrong password and an unknown email are indistinguishable in the response. */
  lemma SameResponseForUnknownUserAndWrongPassword(body: Option<Json>, t1: Tables, t2: Tables, isEmail: string -> bool,
                                                   comparePassword: (string, string) -> bool, generateToken: Claims -> string)
    requires Checks(body, isEmail).Proceed?
    requires ActiveUsers(t1.usuarios, t1.roles, Checks(body, isEmail).input.email) == []
    requires var rows := ActiveUsers(t2.usuarios, t2.roles, Checks(body, isEmail).input.email);
      rows != [] && !comparePassword(Checks(body, isEmail).input.password, rows[0].usuario.password)
    ensures Post(body, t1, isEmail, comparePassword, generateToken)
         == Post(body, t2, isEmail, comparePassword, generateToken) == BadCredentials
  {
  }

  /** The JSON array of numbers that `Buffer.from` reads back as the bytes `bs`. */
  function ByteValues(bs: seq<Utf8.byte>): (r: seq<Json>)
    ensures |r| == |bs| && forall i :: 0 <= i < |bs| ==> r[i] == JNum(bs[i] as real)
  {
    seq(|bs|, i requires 0 <= i < |bs| => JNum(bs[i] as real))
  }

  /** `Buffer.from` reads the numbers of `ByteValues(bs)` back as `bs`. */
  lemma NumberBytesOfByteValues(bs: seq<Utf8.byte>)
    ensures NumberBytes(ByteValues(bs)) == Some(bs)
  {
    var items := ByteValues(bs);
    var read := NumberBytes(items);
    forall i | 0 <= i < |bs|
      ensures read.value[i] == bs[i]
    {
      assert items[i] == JNum(bs[i] as real);
    }
    assert read.value == bs;
  }

  /** The JSON form of a Node buffer, `{"type": "Buffer", "data": [...]}`. */
  function BufferObject(bs: seq<Utf8.byte>): Json {
    JObject(map["type" := JStr("Buffer"), "data" := JArray(ByteValues(bs))])
  }

  /** A buffer object as `captchaToken` reads as the text its bytes decode to. */
  lemma BufferObjectAnswer(fields: map<string, Json>, answer: string)
    requires "captchaToken" in fields && fields["captchaToken"] == BufferObject(Utf8.Encode(answer))
    ensures CaptchaAnswer(fields) == Some(answer)
  {
    var bs := Utf8.Encode(answer);
    var token := map["type" := JStr("Buffer"), "data" := JArray(ByteValues(bs))];
    assert "valueOf" !in token && "length" !in token;
    NumberBytesOfByteValues(bs);
    assert TokenBytes(JObject(token)) == Some(bs);
    Utf8.DecodeEncode(answer);
  }

  /**
   * The captcha check accepts more than the tokens the captcha route
   * issues: the object `{"type": "Buffer", "data": [...]}` holding the
   * answer's UTF-8 bytes passes it too.
   */
  lemma BufferObjectTokenPasses(fields: map<string, Json>, answer: string, isEmail: string -> bool)
    requires ParseLogin(JObject(fields), isEmail).Valid?
    requires fields["captcha"] == JStr(answer)
    requires "captchaToken" in fields && fields["captchaToken"] == BufferObject(Utf8.Encode(answer))
    ensures Checks(Some(JObject(fields)), isEmail).Proceed?
  {
    BufferObjectAnswer(fields, answer);
  }
}
