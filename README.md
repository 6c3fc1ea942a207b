# testkonecta sales back office — a Dafny model

testkonecta is a small back office for bank-product sales. Advisors
("Asesor") file sales of products (some products need a card franchise,
some an interest rate). Administrators see all sales and manage users.
Everyone sees statistics.

The model covers these parts of the system:

- **Server routes.**
  - Login with a captcha: `app/api/auth/login/route.ts` and `app/api/auth/captcha/route.ts`.
  - Listing and creating sales: `app/api/ventas/route.ts`.
  - Statistics: `app/api/estadisticas/route.ts`.
  - The zod schemas the routes validate against: `lib/validations.ts`.
  - The database helpers and row types: `lib/db.ts`.
- **Client components.**
  - The sale form with its thousands-separated amount field: `components/ventas/venta-form-dialog.tsx`.
  - The route guard: `components/auth/protected-route.tsx`.
  - The role-filtered sidebar: `components/layout/dashboard-layout.tsx`.
  - The sales table with its status badges: `components/ventas/ventas-table.tsx`.

One Dafny module per source file:

| file | module | models |
|---|---|---|
| `db.dfy` | `Db` | row types, the lazily created pool (`Connections` class), `queryOne` |
| `ordering.dfy` | `Ordering` | the SQL shapes the routes use: `ORDER BY … DESC` (a stable insertion sort), `WHERE`, `SUM`, `COUNT … GROUP BY`, `LIMIT`, lookup by id |
| `validations.dfy` | `Validations` | the four zod schemas over a JSON value, with their error messages |
| `authz.dfy` | `Authz` | the `Bearer` gate shared by the routes |
| `utf8.dfy`, `base64.dfy` | `Utf8`, `Base64` | `Buffer` conversions: UTF-8 (RFC 3629), Base64 (section 4 of RFC 4648) and Node's lenient decoder |
| `captcha.dfy` | `Captcha` | the captcha route and its token |
| `login.dfy` | `Login` | the login route |
| `ventas.dfy` | `Ventas` | the sales route; `Store` class with the two inserts of a sale |
| `estadisticas.dfy` | `Estadisticas` | the statistics route |
| `venta_form.dfy` | `VentaForm` | formatter, parse, request body, and the `Dialog` class with the form handlers |
| `client_session.dfy` | `ClientSession` | the client session (`Session` class) the guard and the layout act on |
| `protected_route.dfy` | `ProtectedRoute` | the guard's decision and the `Guard` class that applies it |
| `dashboard_layout.dfy` | `DashboardLayout` | navigation, its filter, active entry, logout |
| `ventas_table.dfy` | `VentasTable` | status badge and placeholder rule |

The code the routes call but that is not part of the model enters as
function-valued parameters:

- `lib/auth`: `verifyToken`, `comparePassword`, `generateToken` and `generateCaptcha`.
- The email check of zod: `isEmail`.
- The fetches the client makes: `verify` and `send`.
- The database clock: `now` and `today`.

A thrown exception that the route turns into 500 is a `None` argument or a
`ServerError` result. Decimal amounts and rates are exact `real`s.

## Model

| member | source | states |
|---|---|---|
| Db.Connections.GetDb | lib/db.ts:7-18 | creates a pool (limit 10, queue 0) only when none is cached and otherwise returns the cached one |
| Db.GetDbTwice | lib/db.ts:7-18 | two calls return the same pool |
| Db.QueryOne | lib/db.ts:28-31 | null exactly when the result is empty, otherwise its first row |
| Ordering.SortDesc | app/api/ventas/route.ts:50 | `ORDER BY key DESC`: the result is sorted non-increasingly and is a permutation of the input |
| Ordering.Filter | app/api/ventas/route.ts:76 | `WHERE`: keeps exactly the rows that satisfy the condition |
| Ordering.CountsPartition | app/api/estadisticas/route.ts:60-68 | when every row's key is one of a duplicate-free list of groups, the group counts add up to the number of rows |
| Ordering.SumRealPermutation | app/api/estadisticas/route.ts:27-29 | a sum does not depend on the order of the rows |
| Ordering.Find | app/api/ventas/route.ts:121-131 | lookup by key: a row with that key when one exists, none exactly when no row has it |
| Validations.LoginIssues | lib/validations.ts:4-12 | no issue exactly when the email has 1–50 characters and is email-shaped, the password has 1–20, and the captcha is non-empty |
| Validations.ParseLogin | lib/validations.ts:4-12 | accepts exactly the objects whose three fields are strings within those bounds |
| Validations.UsuarioIssues | lib/validations.ts:17-31 | no issue exactly when the name has 1–50 characters, the email is valid, the optional password has 6–20, `rol_id` is a positive integer and `activo` is absent or boolean |
| Validations.ParseUsuario | lib/validations.ts:17-31 | accepts exactly those objects; the result carries the body's name, email and role id, the password exactly when it was sent, and `activo` exactly when it was sent |
| Validations.VentaIssues | lib/validations.ts:36-50 | no issue exactly when `producto_id` is a positive integer, `0 < cupo_solicitado <= 999999999999.99`, `franquicia_id` is absent, null or a positive integer, and `tasa` is absent, null or in [0, 99.99] |
| Validations.ParseVenta | lib/validations.ts:36-59 | accepts exactly those objects; the result carries the body's product id and amount, and each of franchise and rate is undefined iff absent, null iff sent as null, and otherwise the value sent |
| Validations.VentaSchemaIgnoresProductRules | lib/validations.ts:51-59 | the refinement always passes: a payload with no franchise and no rate is accepted whenever product id and amount are in range |
| Validations.CambioEstadoIssues | lib/validations.ts:64-68 | no issue exactly when both ids are positive integers and the optional comment has at most 500 characters |
| Validations.ParseCambioEstado | lib/validations.ts:64-68 | accepts exactly those objects; the result carries the body's two ids, and the comment exactly when it was sent |
| Authz.Authorize | app/api/ventas/route.ts:9-19 | a missing header, or one not starting with `Bearer `, is refused without consulting the token service |
| Authz.AuthorizeBearer | app/api/ventas/route.ts:94-103 | `Bearer ` + token is admitted exactly when the service accepts the token, with its claims |
| Authz.AuthorizeAllowed | app/api/estadisticas/route.ts:8-18 | every admitted header is `Bearer ` followed by a token the service accepted |
| Utf8.Encode | app/api/auth/captcha/route.ts:12 | between one and four bytes per character |
| Utf8.DecodeEncode | app/api/auth/login/route.ts:19 | decoding the UTF-8 bytes of a string gives the string back |
| Utf8.EncodeInjective | app/api/auth/captcha/route.ts:12 | different strings have different encodings |
| Base64.Encode | app/api/auth/captcha/route.ts:12 | the encoding of `n` bytes has length `4·⌈n/3⌉` |
| Base64.EncodePadded | app/api/auth/captcha/route.ts:12 | the encoding holds only alphabet letters, with `=` only in the last two places |
| Base64.DecodeEncode | app/api/auth/login/route.ts:19 | Node's decoder undoes the encoder for every byte string |
| Captcha.Token | app/api/auth/captcha/route.ts:12 | the token has length `4·⌈n/3⌉` for the `n` UTF-8 bytes of the answer, and uses only alphabet letters and final padding |
| Captcha.Get | app/api/auth/captcha/route.ts:4-18 | 200 exactly when the generator succeeds; the question is passed through and the token decodes to the answer |
| Captcha.TokenRoundTrip | app/api/auth/login/route.ts:19-20 | decoding a token the way login does yields the answer it was made from |
| Captcha.TokenInjective | app/api/auth/captcha/route.ts:12 | the token is a keyless function of the answer alone that tells answers apart |
| Login.ActiveUsers | app/api/auth/login/route.ts:26-31 | exactly the active users with the email, each joined with each role of its `rol_id` |
| Login.CaptchaAnswer | app/api/auth/login/route.ts:19 | a missing or falsy token reads as the empty answer; a string token reads as its Base64-decoded answer; an array or buffer-like object reads as the text of its bytes; anything else throws |
| Login.TokenBytes | app/api/auth/login/route.ts:19 | `Buffer.from` of a non-string value: an array of numbers gives its bytes (`ToUint8` of each), an object whose `length` is not a number gives none, `{"type": "Buffer", "data": [...]}` gives the bytes of `data`; primitives throw |
| Login.Checks | app/api/auth/login/route.ts:8-22 | schema failure gives 400 with the issues; a decoded answer different from the captcha gives 400 "Captcha incorrecto"; a token `Buffer.from` refuses gives 500; otherwise the validated input proceeds |
| Login.Authenticate | app/api/auth/login/route.ts:40-63 | success exactly when the password matches; the token carries exactly the four claims of the row, and the user sent back has no password |
| Login.Post | app/api/auth/login/route.ts:6-68 | 401 "Credenciales inválidas" exactly when no active user has the email or the password does not match; 200 whenever the checks pass and the first row's password matches, with the token for that row's claims and its password-free user |
| Login.ChecksBeforeStore | app/api/auth/login/route.ts:11-22 | a request stopped by the schema or the captcha gets the same response whatever the store and the password service |
| Login.MissingTokenFails | app/api/auth/login/route.ts:19-22 | without `captchaToken` the captcha check always fails, because the captcha is non-empty |
| Login.IssuedTokenPasses | app/api/auth/login/route.ts:19-20 | submitting the answer with the token issued for it passes the captcha check |
| Login.BufferObjectTokenPasses | app/api/auth/login/route.ts:19-20 | a `{"type": "Buffer", "data": [...]}` object holding the answer's UTF-8 bytes also passes the captcha check |
| Login.SameResponseForUnknownUserAndWrongPassword | app/api/auth/login/route.ts:33-43 | an unknown email and a wrong password get the same response |
| Login.UnknownUserAsWritten | app/api/auth/login/route.ts:33-37 | as written, an unknown email ends in 500 where 401 is meant |
| Login.AsWrittenAgreesOtherwise | app/api/auth/login/route.ts:33-37 | in every other case the route as written and the corrected one agree |
| Ventas.Join | app/api/ventas/route.ts:44-49 | a sale yields a row exactly when its product, status and creator exist (inner joins), with the names of those rows; the franchise and updater names are present exactly when the sale refers to an existing row, and are then that row's name (left joins) |
| Ventas.Joined | app/api/ventas/route.ts:44-49 | every joined row comes from a sale, and every sale whose references resolve has its row |
| Ventas.List | app/api/ventas/route.ts:26-79 | the visible rows, newest first, as a permutation |
| Ventas.ListSound | app/api/ventas/route.ts:52-78 | every listed row is a sale the caller may see: any sale for an administrator, otherwise only the caller's own |
| Ventas.ListComplete | app/api/ventas/route.ts:26-79 | every sale the caller may see whose references resolve is listed |
| Ventas.AdminSeesAll | app/api/ventas/route.ts:26-51 | an administrator's listing contains every other caller's listing |
| Ventas.ReduceCupoRows | app/api/ventas/route.ts:82 | reducing over the rows gives exactly the sum of their amounts |
| Ventas.Get | app/api/ventas/route.ts:7-89 | 401 exactly when the gate refuses; otherwise the listing, with a total equal to the sum of the amounts of the returned rows only |
| Ventas.GetAsWrittenTotalIsNaN | app/api/ventas/route.ts:82-84 | as written, the total is NaN (null) whatever the sales, while the rows are the same |
| Ventas.Admit | app/api/ventas/route.ts:92-145 | in order: 401 at the gate, 500 for a body that is not JSON, 400 with the issues on schema failure, 404 for an unknown product, 400 for a missing (falsy) franchise, then 400 for a null or absent rate; admission exactly when all checks pass, with the parsed input and the caller |
| Ventas.ZeroRateAccepted | app/api/ventas/route.ts:140-145 | a rate of 0 satisfies a product that requires a rate |
| Ventas.SchemaBeforeProduct | app/api/ventas/route.ts:108-130 | a payload the schema refuses gets the same response whatever the product table |
| Ventas.NewVenta | app/api/ventas/route.ts:148-167 | the stored sale has the requested product and amount, status 1, creator = updater = caller, the franchise and rate sent or null when absent, and both timestamps set to the insert time |
| Ventas.CreationRow | app/api/ventas/route.ts:172-176 | the history row belongs to the new sale, its actor is the caller, it has no previous status, new status 1 and the comment "Venta creada" |
| Ventas.CreatePreservesConsistent | app/api/ventas/route.ts:148-176 | appending a sale with a fresh id and its creation row keeps the tables consistent: increasing ids, every history row belongs to a sale, every sale has a creation row, and every sale's status is that of its latest history row |
| Ventas.Store.InsertVenta | app/api/ventas/route.ts:148-169 | appends exactly the new sale and returns its id |
| Ventas.Store.InsertCreationRow | app/api/ventas/route.ts:172-176 | appends exactly the creation row |
| Ventas.Store.Post | app/api/ventas/route.ts:92-213 | a rejected request changes nothing; an admitted one appends exactly one sale and then exactly one history row, keeps the store consistent, and answers 201 with the sale read back through the joins |
| Ventas.CreatedSaleListed | app/api/ventas/route.ts:52-78 | a sale the caller created, whose references resolve, appears in the caller's listing |
| Estadisticas.GroupRows | app/api/estadisticas/route.ts:32-41 | one row per group, a group without sales counting 0 with total 0 |
| Estadisticas.PorProducto | app/api/estadisticas/route.ts:32-41 | one row per product, ordered by count descending |
| Estadisticas.PorProductoCountsAllSales | app/api/estadisticas/route.ts:32-41 | given valid references, the per-product counts add up to the number of sales |
| Estadisticas.AsesorRoleIds | app/api/estadisticas/route.ts:53 | exactly the ids of the roles named "Asesor" |
| Estadisticas.PorAsesor | app/api/estadisticas/route.ts:46-56 | a database error exactly when several roles are named "Asesor"; no rows when none is; otherwise one row per user of that role, by count descending |
| Estadisticas.EstadosPorOrden | app/api/estadisticas/route.ts:67 | the statuses in ascending `orden`, as a permutation |
| Estadisticas.PorEstado | app/api/estadisticas/route.ts:60-68 | one row per status, in ascending `orden`, with its count |
| Estadisticas.PorEstadoCountsAllSales | app/api/estadisticas/route.ts:60-68 | given valid references, the per-status counts add up to the number of sales |
| Estadisticas.Recent | app/api/estadisticas/route.ts:77 | exactly the sales created on or after today minus 30 days |
| Estadisticas.RecentDays | app/api/estadisticas/route.ts:71-81 | strictly decreasing days of recent sales, as many as there are distinct such days up to 30; every day left out is older than the last one kept, so the 30 latest are kept |
| Estadisticas.PorFecha | app/api/estadisticas/route.ts:71-81 | one row per day of `RecentDays`, in its order, with that day's count (at least 1) and total amount over the window's sales |
| Estadisticas.Figures | app/api/estadisticas/route.ts:23-90 | the totals count all sales and sum all amounts (0 when none); the product, status and date breakdowns are `PorProducto`, `PorEstado` and `PorFecha` |
| Estadisticas.Get | app/api/estadisticas/route.ts:6-96 | 401 when the gate refuses; non-administrators get 200 with no per-advisor rows; administrators get 500 exactly when the role subquery fails, and otherwise the `PorAsesor` rows; every 200 carries the totals and the `PorProducto`, `PorEstado` and `PorFecha` rows |
| Estadisticas.NonAdminStatsFailAsWritten | app/api/estadisticas/route.ts:44-57 | as written, every caller who is not an administrator gets 500 |
| Estadisticas.StatsAsWrittenAgreesOtherwise | app/api/estadisticas/route.ts:84-91 | for administrators and refused callers the route as written and the corrected one agree |
| VentaForm.FormatIsGroup | components/ventas/venta-form-dialog.tsx:73-78 | the regex replacement, applied position by position, equals grouping the digits by three from the right |
| VentaForm.FormatGrouped | components/ventas/venta-form-dialog.tsx:73-78 | the output holds only digits and dots, with a dot exactly where a multiple of four characters remain; input without digits gives "" |
| VentaForm.FormatStripDots | components/ventas/venta-form-dialog.tsx:75-77 | removing the dots gives the input's digits, in order |
| VentaForm.FormatIdempotent | components/ventas/venta-form-dialog.tsx:73-78 | formatting twice equals formatting once |
| VentaForm.ParseFormatted | components/ventas/venta-form-dialog.tsx:95 | the amount parsed from a formatted field is the number its digits denote, NaN when there are none |
| VentaForm.Body | components/ventas/venta-form-dialog.tsx:97-102 | an empty franchise or rate is sent as null; the amount is the parsed field |
| VentaForm.RequestFor | components/ventas/venta-form-dialog.tsx:91-111 | POST to `/api/ventas` for a new sale, PUT to `/api/ventas/<id>` for an edit, with the bearer token |
| VentaForm.ErrorFor | components/ventas/venta-form-dialog.tsx:113-123 | no error exactly on an ok response; otherwise the response's non-empty `error`, "Error al guardar venta" when it has none, or the message of the exception |
| VentaForm.FormBodyValidates | components/ventas/venta-form-dialog.tsx:95-102 | a form with a listed product and a typed amount passes the sale schema exactly when both are in range |
| VentaForm.NatTextValue | components/ventas/venta-form-dialog.tsx:98 | a product option's text parses back to the product id |
| VentaForm.PrefillCupo | components/ventas/venta-form-dialog.tsx:73-78 | the corrected amount prefill (fifth finding), not line 58 as written: thousands-grouped as typing shows it, and parsing back to the stored amount |
| VentaForm.Prefill | components/ventas/venta-form-dialog.tsx:54-60 | the product and franchise fields parse back to the stored ids, an absent franchise or rate is "", and the amount is `PrefillCupo` |
| VentaForm.UnchangedEditKeepsSale | components/ventas/venta-form-dialog.tsx:95-101 | with the corrected prefill (fifth finding), submitting an edit without touching its fields sends the stored product, amount and franchise; as written the amount is a hundredfold |
| VentaForm.UnchangedEditHundredfoldAsWritten | components/ventas/venta-form-dialog.tsx:58 | as written, the prefilled text "n.00" parses to 100·n, so an untouched edit resends a hundred times the amount |
| VentaForm.Dialog.Reset | components/ventas/venta-form-dialog.tsx:54-71 | the corrected dialog of the fifth finding: the fields become the corrected prefill of the edited sale (`Prefill`) or empty, so the amount field parses back to the stored amount rather than the hundredfold of line 58; the error is cleared |
| VentaForm.Dialog.ChangeProducto | components/ventas/venta-form-dialog.tsx:151 | choosing a product clears franchise and rate and keeps the amount |
| VentaForm.Dialog.HandleCupoChange | components/ventas/venta-form-dialog.tsx:80-83 | the amount field holds the formatted text, grouped by thousands |
| VentaForm.Dialog.ChangeFranquicia | components/ventas/venta-form-dialog.tsx:184 | only the franchise field changes |
| VentaForm.Dialog.ChangeTasa | components/ventas/venta-form-dialog.tsx:210 | only the rate field changes |
| VentaForm.Dialog.HandleSubmit | components/ventas/venta-form-dialog.tsx:85-127 | sends the request built from the fields, closes exactly on success, shows the outcome's error, leaves the fields alone and ends not loading |
| ClientSession.Session.Logout | components/layout/dashboard-layout.tsx:25 | the token and the user are forgotten |
| ProtectedRoute.Decide | components/auth/protected-route.tsx:21-53 | no token or no session goes to login; a refused or failed verification logs out and goes to login; a role not in the list goes to the dashboard; the page shows exactly when all pass |
| ProtectedRoute.NoSessionSkipsVerify | components/auth/protected-route.tsx:22-25 | without a session the verify endpoint is never consulted |
| ProtectedRoute.NoRoleCheck | components/auth/protected-route.tsx:42 | without a role list, or without a stored user, a confirmed token shows the page |
| ProtectedRoute.Guard.VerifyAuth | components/auth/protected-route.tsx:20-66 | applies the decision: redirects as decided, logs out only on a refused or failed verification, and stops the spinner only when every check passes |
| DashboardLayout.Navigation | components/layout/dashboard-layout.tsx:29-54 | four entries in fixed order; Usuarios shown exactly for an administrator, the others always |
| DashboardLayout.ShownExactly | components/layout/dashboard-layout.tsx:64-65 | the filter keeps exactly the entries marked to be shown |
| DashboardLayout.ShownKeepsOrder | components/layout/dashboard-layout.tsx:64-65 | the filter keeps the relative order of the entries |
| DashboardLayout.MenuByRole | components/layout/dashboard-layout.tsx:29-65 | an administrator sees the four entries, anyone else Dashboard, Radicar Venta and Estadísticas in that order |
| DashboardLayout.AtMostOneActive | components/layout/dashboard-layout.tsx:68 | at most one entry is active; no entry is active on a path strictly below its own href; on the page of any other entry, Dashboard is not active |
| DashboardLayout.HandleLogout | components/layout/dashboard-layout.tsx:24-27 | logs out, then goes to `/login` |
| VentasTable.BadgeFor | components/ventas/ventas-table.tsx:18-29 | Abierto → default, En Proceso → secondary, Finalizado → outline, anything else → default |
| VentasTable.Render | components/ventas/ventas-table.tsx:46-83 | the placeholder spanning 7 columns with "No hay ventas registradas" exactly when there are no sales; otherwise one row per sale with its badge |
| VentasTable.NoSalesNoPlaceholderAsWritten | components/ventas/ventas-table.tsx:46-53 | as written, a listing with no sales renders an empty body instead of the placeholder |
| VentasTable.AsWrittenAgreesWithSales | components/ventas/ventas-table.tsx:46-53 | with at least one sale, the table as written and the corrected one agree |

## Left out

- `lib/auth` is not part of this model. `verifyToken`, `comparePassword`, `generateToken` and `generateCaptcha` are parameters, with no JWT or bcrypt behaviour.
- MySQL execution is not modelled. Tables are in-memory sequences and queries are pure filters and aggregates.
  - A store failure that ends in 500 is not modelled, except where a route's own code throws.
  - The email comparison is exact, not MySQL's case-insensitive collation. The same holds for the role name in `Estadisticas.AsesorRoleIds`, which compares `nombre = 'Asesor'` exactly.
- The reference-data routes (`productos`, `roles`, `franquicias`) are left out. Each is the same bearer gate plus a single sorted `SELECT`.
- The update, delete and status-change handlers of sales are not part of this model.
- The dashboard pages, the login form and the sale view dialog are left out: they are rendering and fetch calls.
- The hook that owns the client session is not part of this model. `Session.Logout` is taken to clear the stored token and user.
- Ventas.Store.Post: the sale insert and the history insert are two statements with no transaction. A failure between them (a sale without its history row, plus a 500) is not modelled.
- Ventas.List: ties in `ORDER BY created_at DESC` are resolved by a stable insertion sort. MySQL leaves their order unspecified.
- Ventas.Get: the response's `ventas` field is, in the source, the `[rows, fields]` pair. The model keeps the rows, which is what the table reads through `ventas[0]`.
- Estadisticas.PorProducto: ties in `ORDER BY cantidad DESC` are resolved as in `Ventas.List`.
- Estadisticas.PorFecha: days are whole multiples of 86400 seconds of the session clock. Time zones and daylight saving time are not modelled.
- VentaForm.ParseNat: `parseInt` and `parseFloat` are modelled only for strings that start with a digit. Leading whitespace, signs, fractions, exponents and `Infinity` are not modelled. The rate's `parseFloat` is a parameter.
- VentaForm.Dialog.Reset: fills the amount with the corrected `PrefillCupo`, not the column text `cupo_solicitado.toString()` of line 58; the as-written text and its hundredfold reading are `PrefillCupoAsWritten` and `VentaForm.UnchangedEditHundredfoldAsWritten`. The edited sale's amount is a whole number of units; cents, which the amount field cannot show, are not modelled. Its rate arrives as the text of its column.
- Validations.LoginIssues: string lengths count Unicode scalar values, whereas zod counts UTF-16 code units. Strings outside the Basic Multilingual Plane can differ. The email check is the parameter `isEmail`.
- Login.TokenBytes: `Buffer.from` is modelled for strings, arrays of numbers, objects whose `length` is not a number, and `{"type": "Buffer", "data": [numbers]}`. Arrays with elements that are not numbers, objects with a numeric `length` (read as array-likes), and objects with an own `valueOf` key are treated as throwing, although Node converts some of them to bytes.
- Floating-point arithmetic is left out. Amounts, rates and sums are exact reals.
- The statistics page's averages and bar widths are left out, as is the sidebar's open/closed toggle.

## Findings

| source | as written | input that shows it | evidently intended | confidence | as-written member | corrected member |
|---|---|---|---|---|---|---|
| app/api/auth/login/route.ts:33-37 | `usuarios.length === 0` tests the `[rows, fields]` pair, which always has length 2; then `usuarios[0][0]` is `undefined` and reading its `password` throws | a valid login body with a correct captcha for an email that no active user has | 401 "Credenciales inválidas" | high; not executed | Login.UnknownUserAsWritten | Login.Post |
| app/api/ventas/route.ts:82 | `reduce` runs over the `[rows, fields]` pair; `Number(x.cupo_solicitado)` is `NaN` for both elements | any authorised GET, even with sales on record | `totalCupo` is the sum of the listed amounts | high; not executed | Ventas.GetAsWrittenTotalIsNaN | Ventas.Get |
| app/api/estadisticas/route.ts:44-57, 88 | for a caller who is not an administrator `ventasPorAsesor` stays `[]`, and `ventasPorAsesor[0][0]` reads a property of `undefined` | any authorised GET by an advisor | 200 with no per-advisor rows | high; not executed | Estadisticas.NonAdminStatsFailAsWritten | Estadisticas.Get |
| components/ventas/ventas-table.tsx:46-53 | `ventas.length === 0` tests the listing's `[rows, fields]` pair, never empty once loaded | a listing with no sales | the placeholder row "No hay ventas registradas" | medium; not executed | VentasTable.NoSalesNoPlaceholderAsWritten | VentasTable.Render |
| components/ventas/venta-form-dialog.tsx:58, 95 | the edit form is prefilled with `cupo_solicitado.toString()`, the `DECIMAL(15,2)` text "1500000.00"; the submit strips every dot before `parseFloat` | editing a sale of 1500000 and saving without touching the amount | the stored amount is resent unchanged | medium (depends on the driver returning `DECIMAL` as text, its default); not executed | VentaForm.UnchangedEditHundredfoldAsWritten | VentaForm.Dialog.Reset |
