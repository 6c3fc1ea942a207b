/**
 * The dialog that files or edits a sale. The amount field is shown with
 * `.` as thousands separator; on submit the dots are removed again, the
 * fields are parsed into a JSON body and sent to the sales route.
 */
module VentaForm {
  import opened Wrappers
  import opened Validations

  predicate IsDigit(c: char) {
    '0' <= c <= '9'
  }

  predicate AllDigits(s: string) {
    forall i :: 0 <= i < |s| ==> IsDigit(s[i])
  }

  /** `value.replace(/\D/g, "")`: the digits of `s`, in order. */
  function Digits(s: string): (r: string)
    ensures AllDigits(r)
    ensures |r| <= |s|
    ensures AllDigits(s) ==> r == s
  {
    if s == [] then []
    else (if IsDigit(s[0]) then [s[0]] else []) + Digits(s[1..])
  }

  /** `s.replace(/\./g, "")`. */
  function StripDots(s: string): (r: string)
    ensures |r| <= |s|
    ensures forall i :: 0 <= i < |r| ==> r[i] != '.'
    ensures AllDigits(s) ==> r == s
  {
    if s == [] then []
    else (if s[0] == '.' then [] else [s[0]]) + StripDots(s[1..])
  }

  lemma {:induction false} DigitsAppend(a: string, b: string)
    ensures Digits(a + b) == Digits(a) + Digits(b)
  {
    if a == [] {
      assert a + b == b;
    } else {
      var head := if IsDigit(a[0]) then [a[0]] else [];
      assert (a + b)[0] == a[0] && (a + b)[1..] == a[1..] + b;
      calc {
        Digits(a + b);
        head + Digits(a[1..] + b);
        { DigitsAppend(a[1..], b); }
        head + (Digits(a[1..]) + Digits(b));
        Digits(a) + Digits(b);
      }
    }
  }

  lemma {:induction false} StripDotsAppend(a: string, b: string)
    ensures StripDots(a + b) == StripDots(a) + StripDots(b)
  {
    if a == [] {
      assert a + b == b;
    } else {
      var head := if a[0] == '.' then [] else [a[0]];
      assert (a + b)[0] == a[0] && (a + b)[1..] == a[1..] + b;
      calc {
        StripDots(a + b);
        head + StripDots(a[1..] + b);
        { StripDotsAppend(a[1..], b); }
        head + (StripDots(a[1..]) + StripDots(b));
        StripDots(a) + StripDots(b);
      }
    }
  }

  // ------------------------------------------------------------------ the formatter

  /**
   * What the replacement `/\B(?=(\d{3})+(?!\d))/g` puts in front of the
   * digit at position `i` of an all-digit string of length `n`: a dot when
   * `i` is not at the start (`\B`) and the digits from `i` to the end come
   * in whole groups of three.
   */
  function Separator(n: nat, i: nat): string {
    if 0 < i && (n - i) % 3 == 0 then "." else ""
  }

  /** The replacement's output for the first `m` digits of `ds`. */
  function Scan(ds: string, m: nat): string
    requires m <= |ds|
  {
    if m == 0 then [] else Scan(ds, m - 1) + Separator(|ds|, m - 1) + [ds[m - 1]]
  }

  /** `formatCupoInput`: keep the digits, then mark thousands. */
  function FormatCupoInput(value: string): string {
    var ds := Digits(value);
    Scan(ds, |ds|)
  }

  /** Grouping defined from the right: the last three digits, a dot, and the rest grouped alike. */
  function Group(ds: string): (r: string)
    decreases |ds|
  {
    if |ds| <= 3 then ds else Group(ds[..|ds| - 3]) + "." + ds[|ds| - 3..]
  }

  /** A prefix whose length differs from the whole by a multiple of three is scanned as it would be grouped. */
  lemma {:induction false} ScanGroup(ds: string, m: nat)
    requires m <= |ds| && (|ds| - m) % 3 == 0
    ensures Scan(ds, m) == Group(ds[..m])
    decreases m
  {
    if m == 0 {
    } else if m <= 3 {
      ScanShort(ds, m);
    } else {
      calc {
        Scan(ds, m);
        { ScanThree(ds, m); }
        Scan(ds, m - 3) + "." + ds[m - 3..m];
        { ScanGroup(ds, m - 3); }
        Group(ds[..m - 3]) + "." + ds[m - 3..m];
        { assert ds[..m][..m - 3] == ds[..m - 3] && ds[..m][m - 3..] == ds[m - 3..m]; }
        Group(ds[..m]);
      }
    }
  }

  /** A prefix of one to three digits is copied without a dot. */
  lemma ScanShort(ds: string, m: nat)
    requires 1 <= m <= 3 && m <= |ds| && (|ds| - m) % 3 == 0
    ensures Scan(ds, m) == ds[..m]
  {
    var n := |ds|;
    assert Scan(ds, 1) == [ds[0]];
    if m >= 2 {
      assert Separator(n, 1) == "";
      assert Scan(ds, 2) == [ds[0], ds[1]];
    }
    if m == 3 {
      assert Separator(n, 2) == "";
      assert Scan(ds, 3) == [ds[0], ds[1], ds[2]];
    }
    assert ds[..m] == Scan(ds, m);
  }

  /** The last three digits of such a prefix come after a dot. */
  lemma ScanThree(ds: string, m: nat)
    requires 3 < m <= |ds| && (|ds| - m) % 3 == 0
    ensures Scan(ds, m) == Scan(ds, m - 3) + "." + ds[m - 3..m]
  {
    var n := |ds|;
    assert Separator(n, m - 3) == ".";
    assert Separator(n, m - 2) == "" && Separator(n, m - 1) == "";
    assert Scan(ds, m - 2) == Scan(ds, m - 3) + "." + [ds[m - 3]];
    assert Scan(ds, m - 1) == Scan(ds, m - 2) + [ds[m - 2]];
    assert Scan(ds, m) == Scan(ds, m - 1) + [ds[m - 1]];
    assert ds[m - 3..m] == [ds[m - 3], ds[m - 2], ds[m - 1]];
  }

  /** The formatter is the right-to-left grouping of the input's digits. */
  lemma FormatIsGroup(value: string)
    ensures FormatCupoInput(value) == Group(Digits(value))
  {
    var ds := Digits(value);
    ScanGroup(ds, |ds|);
    assert ds[..|ds|] == ds;
  }

  /**
   * Digits grouped by thousands: only digits and dots, a dot exactly where
   * a multiple of four characters remain, and no dot in front. So the first
   * group has one to three digits, every later group exactly three, and no
   * dot is leading, trailing or next to another.
   */
  predicate ThousandsGrouped(r: string) {
    && (forall i :: 0 <= i < |r| ==> IsDigit(r[i]) || r[i] == '.')
    && (forall i :: 0 <= i < |r| ==> (r[i] == '.' <==> (|r| - i) % 4 == 0))
    && (r == [] || |r| % 4 != 0)
  }

  lemma {:induction false} GroupGrouped(ds: string)
    requires AllDigits(ds)
    ensures ThousandsGrouped(Group(ds))
    ensures ds != [] ==> Group(ds) != []
    decreases |ds|
  {
    if |ds| > 3 {
      GroupGrouped(ds[..|ds| - 3]);
      GroupedAppend(Group(ds[..|ds| - 3]), ds[|ds| - 3..]);
    }
  }

  /** A dot and three more digits after a grouped, non-empty prefix keep it grouped. */
  lemma GroupedAppend(g: string, tail: string)
    requires ThousandsGrouped(g) && g != []
    requires |tail| == 3 && AllDigits(tail)
    ensures ThousandsGrouped(g + "." + tail)
  {
    var r := g + "." + tail;
    assert |r| == |g| + 4;
    forall i | 0 <= i < |r|
      ensures (IsDigit(r[i]) || r[i] == '.') && (r[i] == '.' <==> (|r| - i) % 4 == 0)
    {
      if i < |g| {
        assert r[i] == g[i];
        assert (|r| - i) % 4 == (|g| - i) % 4;
      } else if i == |g| {
        assert r[i] == '.';
      } else {
        assert r[i] == tail[i - |g| - 1];
      }
    }
  }

  /** Removing the dots from the grouping gives the digits back. */
  lemma {:induction false} StripDotsGroup(ds: string)
    requires AllDigits(ds)
    ensures StripDots(Group(ds)) == ds
    decreases |ds|
  {
    if |ds| > 3 {
      var front, back := ds[..|ds| - 3], ds[|ds| - 3..];
      StripDotsGroup(front);
      StripDotsAppend(Group(front) + ".", back);
      StripDotsAppend(Group(front), ".");
      assert StripDots(".") == [];
      assert ds == front + back;
    }
  }

  /** The digits of the grouping are the grouped digits. */
  lemma {:induction false} DigitsGroup(ds: string)
    requires AllDigits(ds)
    ensures Digits(Group(ds)) == ds
    decreases |ds|
  {
    if |ds| > 3 {
      var front, back := ds[..|ds| - 3], ds[|ds| - 3..];
      DigitsGroup(front);
      DigitsAppend(Group(front) + ".", back);
      DigitsAppend(Group(front), ".");
      assert Digits(".") == [];
      assert ds == front + back;
    }
  }

  /** The output holds only digits and dots, grouped by thousands. */
  lemma FormatGrouped(value: string)
    ensures ThousandsGrouped(FormatCupoInput(value))
    ensures Digits(value) != [] <==> FormatCupoInput(value) != []
  {
    FormatIsGroup(value);
    GroupGrouped(Digits(value));
  }

  /** Removing the dots from the output gives back the digits of the input, in order. */
  lemma FormatStripDots(value: string)
    ensures StripDots(FormatCupoInput(value)) == Digits(value)
    ensures Digits(FormatCupoInput(value)) == Digits(value)
  {
    FormatIsGroup(value);
    StripDotsGroup(Digits(value));
    DigitsGroup(Digits(value));
  }

  /** Formatting what is already formatted changes nothing. */
  lemma FormatIdempotent(value: string)
    ensures FormatCupoInput(FormatCupoInput(value)) == FormatCupoInput(value)
  {
    FormatStripDots(value);
  }

  // ------------------------------------------------------------------ parsing

  /** The digits `s` starts with. */
  function LeadingDigits(s: string): (r: string)
    ensures AllDigits(r) && |r| <= |s| && r == s[..|r|]
    ensures AllDigits(s) ==> r == s
  {
    if s == [] || !IsDigit(s[0]) then [] else [s[0]] + LeadingDigits(s[1..])
  }

  /** The number an all-digit string denotes in base ten. */
  function DigitsValue(ds: string): nat
    requires AllDigits(ds)
  {
    if ds == [] then 0 else DigitsValue(ds[..|ds| - 1]) * 10 + (ds[|ds| - 1] as int - '0' as int)
  }

  /**
   * `Number.parseInt(s)` / `Number.parseFloat(s)` on a string that starts
   * with a digit and carries no sign, fraction or exponent: the value of
   * its leading digits. None stands for NaN.
   */
  function ParseNat(s: string): (r: Option<nat>)
    ensures r.None? <==> (s == [] || !IsDigit(s[0]))
  {
    var p := LeadingDigits(s);
    if p == [] then None else Some(DigitsValue(p))
  }

  /** `Number.parseFloat(cupo.replace(/\./g, ""))`. */
  function ParseCupo(s: string): Option<nat> {
    ParseNat(StripDots(s))
  }

  /** The amount sent for a formatted field is the number its digits denote; NaN when there are none. */
  lemma ParseFormatted(value: string)
    ensures ParseCupo(FormatCupoInput(value)) ==
      if Digits(value) == [] then None else Some(DigitsValue(Digits(value)))
  {
    FormatStripDots(value);
  }

  // ------------------------------------------------------------------ the request body

  /** The form's four text fields. */
  datatype FormData = FormData(productoId: string, cupo: string, franquiciaId: string, tasa: string)

  const EmptyForm: FormData := FormData("", "", "", "")

  /** A parsed number as JSON: NaN serialises as null. */
  function NumOrNull(x: Option<real>): (j: Json)
    ensures j.JNull? <==> x.None?
  {
    if x.Some? then JNum(x.value) else JNull
  }

  function AsReal(x: Option<nat>): (r: Option<real>)
    ensures r.Some? <==> x.Some?
  {
    if x.Some? then Some(x.value as real) else None
  }

  /**
   * The body of the request: the product id and the amount parsed, the
   * franchise and the rate parsed when their field is not empty and null
   * otherwise. `parseFloat` stands for `Number.parseFloat` on the rate's text.
   */
  function Body(f: FormData, parseFloat: string -> Option<real>): (b: Json)
    ensures b.JObject? && b.fields.Keys == {"producto_id", "cupo_solicitado", "franquicia_id", "tasa"}
    ensures b.fields["cupo_solicitado"] == NumOrNull(AsReal(ParseCupo(f.cupo)))
    ensures b.fields["producto_id"] == NumOrNull(AsReal(ParseNat(f.productoId)))
    ensures f.franquiciaId == "" ==> b.fields["franquicia_id"] == JNull
    ensures f.tasa == "" ==> b.fields["tasa"] == JNull
    ensures f.franquiciaId != "" ==> b.fields["franquicia_id"] == NumOrNull(AsReal(ParseNat(f.franquiciaId)))
    ensures f.tasa != "" ==> b.fields["tasa"] == NumOrNull(parseFloat(f.tasa))
  {
    JObject(map[
      "producto_id" := NumOrNull(AsReal(ParseNat(f.productoId))),
      "cupo_solicitado" := NumOrNull(AsReal(ParseCupo(f.cupo))),
      "franquicia_id" := if f.franquiciaId != "" then NumOrNull(AsReal(ParseNat(f.franquiciaId))) else JNull,
      "tasa" := if f.tasa != "" then NumOrNull(parseFloat(f.tasa)) else JNull])
  }

  /** Where the dialog sends the body: a new sale, or the sale being edited (its id as text). */
  datatype Target = CreateVenta | UpdateVenta(idText: string)

  datatype Request = Request(url: string, httpMethod: string, authorization: string, body: Json)

  function RequestFor(target: Target, token: string, f: FormData, parseFloat: string -> Option<real>): (r: Request)
    ensures r.authorization == "Bearer " + token && r.body == Body(f, parseFloat)
    ensures target.CreateVenta? ==> r.url == "/api/ventas" && r.httpMethod == "POST"
    ensures target.UpdateVenta? ==> r.url == "/api/ventas/" + target.idText && r.httpMethod == "PUT"
  {
    match target
    case CreateVenta => Request("/api/ventas", "POST", "Bearer " + token, Body(f, parseFloat))
    case UpdateVenta(id) => Request("/api/ventas/" + id, "PUT", "Bearer " + token, Body(f, parseFloat))
  }

  /**
   * How the request ended: a response with its `ok` flag and its `error`
   * field, or an exception with its message (a failed fetch, a body that is
   * not JSON).
   */
  datatype Outcome = Responded(ok: bool, errorField: Option<string>) | Threw(message: string)

  const DefaultError: string := "Error al guardar venta"

  /** The message the dialog shows for an outcome, None when it succeeded. */
  function ErrorFor(o: Outcome): (e: Option<string>)
    ensures e.None? <==> (o.Responded? && o.ok)
    ensures o.Responded? && !o.ok && (o.errorField.None? || o.errorField.value == "") ==> e == Some(DefaultError)
    ensures o.Responded? && !o.ok && o.errorField.Some? && o.errorField.value != "" ==> e == o.errorField
    ensures o.Threw? ==> e == Some(o.message)
  {
    match o
    case Responded(ok, field) =>
      if ok then None
      else if field.Some? && field.value != "" then Some(field.value)
      else Some(DefaultError)
    case Threw(message) => Some(message)
  }

  /** The dialog's state: the fields, the error shown and whether a request is in flight. */
  class Dialog {
    var formData: FormData
    var error: Option<string>
    var isLoading: bool

    constructor ()
      ensures formData == EmptyForm && error.None? && !isLoading
    {
      formData := EmptyForm;
      error := None;
      isLoading := false;
    }

    /**
     * The effect run when the dialog opens or its sale changes: the edited
     * sale's fields, or empty fields, and no error.
     */
    method Reset(venta: Option<EditedVenta>)
      modifies this
      ensures formData == (if venta.Some? then Prefill(venta.value) else EmptyForm)
      ensures venta.Some? ==> ParseCupo(formData.cupo) == Some(venta.value.cupo)
      ensures error.None? && isLoading == old(isLoading)
    {
      formData := if venta.Some? then Prefill(venta.value) else EmptyForm;
      error := None;
    }

    /** Choosing a product clears the franchise and the rate; the amount stays. */
    method ChangeProducto(value: string)
      modifies this
      ensures formData == FormData(value, old(formData.cupo), "", "")
      ensures error == old(error) && isLoading == old(isLoading)
    {
      formData := formData.(productoId := value, franquiciaId := "", tasa := "");
    }

    /** Typing in the amount field stores the formatted text. */
    method HandleCupoChange(value: string)
      modifies this
      ensures formData == old(formData).(cupo := FormatCupoInput(value))
      ensures ThousandsGrouped(formData.cupo)
      ensures error == old(error) && isLoading == old(isLoading)
    {
      formData := formData.(cupo := FormatCupoInput(value));
      FormatGrouped(value);
    }

    method ChangeFranquicia(value: string)
      modifies this
      ensures formData == old(formData).(franquiciaId := value)
      ensures error == old(error) && isLoading == old(isLoading)
    {
      formData := formData.(franquiciaId := value);
    }

    method ChangeTasa(value: string)
      modifies this
      ensures formData == old(formData).(tasa := value)
      ensures error == old(error) && isLoading == old(isLoading)
    {
      formData := formData.(tasa := value);
    }

    /**
     * Submitting: clear the error, mark loading, send the request (its
     * outcome is given by `send`), show the error if any, stop loading.
     * `closed` reports the success path, which calls `onSuccess` and closes
     * the dialog.
     */
    method HandleSubmit(target: Target, token: string, parseFloat: string -> Option<real>,
                        send: Request -> Outcome)
      returns (request: Request, closed: bool)
      modifies this
      ensures request == RequestFor(target, token, old(formData), parseFloat)
      ensures closed <==> (send(request).Responded? && send(request).ok)
      ensures error == ErrorFor(send(request))
      ensures formData == old(formData) && !isLoading
    {
      error := None;
      isLoading := true;
      request := RequestFor(target, token, formData, parseFloat);
      var outcome := send(request);
      error := ErrorFor(outcome);
      closed := error.None?;
      isLoading := false;
    }
  }

  /**
   * A form filled through the dialog (a product chosen from the list, an
   * amount typed, no franchise and no rate) yields a body the sale schema
   * accepts exactly when the product id and the amount are in range, and
   * it then carries those values.
   */
  lemma FormBodyValidates(productoId: nat, typed: string, parseFloat: string -> Option<real>)
    requires Digits(typed) != []
    ensures var f := FormData(NatText(productoId), FormatCupoInput(typed), "", "");
      var amount := DigitsValue(Digits(typed)) as real;
      var b := Body(f, parseFloat);
      ParseVenta(b).Valid? <==> productoId > 0 && 0.0 < amount <= MaxCupo
  {
    var f := FormData(NatText(productoId), FormatCupoInput(typed), "", "");
    ParseFormatted(typed);
    NatTextValue(productoId);
    var b := Body(f, parseFloat);
    assert b.fields["producto_id"] == JNum(productoId as real);
    assert b.fields["cupo_solicitado"] == JNum(DigitsValue(Digits(typed)) as real);
    assert b.fields["franquicia_id"] == JNull && b.fields["tasa"] == JNull;
  }

  /** `${n}`: the decimal digits of `n`. */
  function NatText(n: nat): (s: string)
    ensures AllDigits(s) && s != []
    decreases n
  {
    if n < 10 then [('0' as int + n) as char] else NatText(n / 10) + [('0' as int + n % 10) as char]
  }

  /** The option value of a product parses back to its id. */
  lemma {:induction false} NatTextValue(n: nat)
    ensures DigitsValue(NatText(n)) == n
    ensures ParseNat(NatText(n)) == Some(n)
    decreases n
  {
    var s := NatText(n);
    if n >= 10 {
      NatTextValue(n / 10);
      assert s[..|s| - 1] == NatText(n / 10);
    }
  }

  // ------------------------------------------------------------------ editing a sale

  /**
   * The columns of the sale being edited. The amount is a whole number of
   * units, as the amount field can show it; the rate is the text of its
   * column.
   */
  datatype EditedVenta = EditedVenta(productoId: nat, cupo: nat, franquiciaId: Option<nat>, tasa: Option<string>)

  /**
   * As written, the amount field of an edit starts as
   * `cupo_solicitado.toString()`. The driver returns a `DECIMAL(15,2)`
   * column as text, so a whole amount arrives with a fractional part ".00".
   */
  function PrefillCupoAsWritten(n: nat): string {
    NatText(n) + ".00"
  }

  /** The value of a digit string followed by two zeros is a hundred times its own. */
  lemma DigitsValueHundred(ds: string)
    requires AllDigits(ds)
    ensures AllDigits(ds + "00") && DigitsValue(ds + "00") == DigitsValue(ds) * 100
  {
    assert (ds + "00")[..|ds| + 1] == ds + "0";
    assert (ds + "0")[..|ds|] == ds;
  }

  /**
   * As written, submitting an edit without touching the amount sends a
   * hundred times the stored amount: the submit strips the decimal point of
   * ".00" as if it were a thousands separator.
   */
  lemma UnchangedEditHundredfoldAsWritten(n: nat)
    ensures ParseCupo(PrefillCupoAsWritten(n)) == Some(n * 100)
  {
    var ds := NatText(n);
    StripDotsAppend(ds, ".00");
    assert StripDots(".00") == "00";
    DigitsValueHundred(ds);
    NatTextValue(n);
  }

  /** The amount field of an edit: the stored amount formatted as typing it would show it. */
  function PrefillCupo(n: nat): (s: string)
    ensures ThousandsGrouped(s)
    ensures ParseCupo(s) == Some(n)
  {
    FormatGrouped(NatText(n));
    ParseFormatted(NatText(n));
    NatTextValue(n);
    FormatCupoInput(NatText(n))
  }

  /** The fields an edit starts from (`producto_id.toString()`, `franquicia_id?.toString() || ""`, ...). */
  function Prefill(v: EditedVenta): (f: FormData)
    ensures ParseNat(f.productoId) == Some(v.productoId)
    ensures ParseCupo(f.cupo) == Some(v.cupo) && ThousandsGrouped(f.cupo)
    ensures f.franquiciaId == "" <==> v.franquiciaId.None?
    ensures v.franquiciaId.Some? ==> ParseNat(f.franquiciaId) == v.franquiciaId
    ensures f.tasa == (if v.tasa.Some? then v.tasa.value else "")
  {
    NatTextValue(v.productoId);
    NatTextValue(if v.franquiciaId.Some? then v.franquiciaId.value else 0);
    FormData(NatText(v.productoId), PrefillCupo(v.cupo),
             if v.franquiciaId.Some? then NatText(v.franquiciaId.value) else "",
             if v.tasa.Some? then v.tasa.value else "")
  }

  /** Submitting an edit without touching its fields sends the stored product, amount and franchise back. */
  lemma UnchangedEditKeepsSale(v: EditedVenta, parseFloat: string -> Option<real>)
    ensures var b := Body(Prefill(v), parseFloat);
      && b.fields["producto_id"] == JNum(v.productoId as real)
      && b.fields["cupo_solicitado"] == JNum(v.cupo as real)
      && b.fields["franquicia_id"] == (if v.franquiciaId.Some? then JNum(v.franquiciaId.value as real) else JNull)
  {
  }
}
