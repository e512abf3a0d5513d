/**
 * Shared vocabulary of the route handlers: optional values, the uniform
 * response envelope, the error messages the handlers report, and the reading
 * of numeric path parameters.
 */
module Http {

  datatype Option<+T> = None | Some(value: T)

  /** The envelope `{ code, message, errors, data }` every handler answers
      with; `Ok` carries `data`, `Fail` carries `message` and `errors`. */
  datatype Reply<+T> =
    | Ok(status: nat, value: T)
    | Fail(status: nat, message: string, errors: seq<string>)

  /** A failure whose `errors` array is empty, as in every handler but the
      form-validated ones. */
  function Error<T>(status: nat, message: string): (r: Reply<T>)
    ensures r.Fail? && r.status == status && r.message == message && r.errors == []
  {
    Fail(status, message, [])
  }

  // Messages the handlers raise themselves.
  const BadInput := "érvénytelen bemeneti adat"
  const BadInputCap := "Hibás bemeneti adat"
  const BadForm := "Hibás bemeneti adat(ok)"
  const EmailTaken := "Az email cím már foglalt"
  const NotDeletable := "nem létező id-t szeretnénl törölni"
  const NotDeletableAlt := "nem létező id-t szeretnél törölni"

  // Messages that come from the runtime or from the database rather than from
  // the handler's own `throw`; the model fixes one text for each kind.
  /** Destructuring `[[{x}]]` of a query that returned no row (a TypeError). */
  const RowMissing := "Cannot destructure a row of an empty result"
  /** A row whose foreign key points at nothing, or a value the column rejects. */
  const ForeignKeyFails := "a foreign key constraint fails"
  /** Reading a property of `undefined` outside a destructuring (a TypeError). */
  const UndefinedProperty := "Cannot read properties of undefined"
  /** A reference to an undeclared variable (a ReferenceError). */
  const UndeclaredVariable := "is not defined"
  /** Any other error the database raises while a statement runs. */
  const DatabaseError := "the database reported an error"
  /** A bulk insert `VALUES ?` given an empty list produces invalid SQL. */
  const EmptyBulkInsert := "You have an error in your SQL syntax"

  predicate IsDigit(c: char) { '0' <= c <= '9' }

  /** Value of a string of decimal digits, most significant first. */
  function DigitsValue(s: string): nat
    requires forall i :: 0 <= i < |s| ==> IsDigit(s[i])
  {
    if s == [] then 0
    else
      var d := s[|s| - 1] as int - '0' as int;
      assert IsDigit(s[|s| - 1]);
      DigitsValue(s[..|s| - 1]) * 10 + d
  }

  /** A path parameter read as a row id: a non-empty run of decimal digits
      names that row; anything else names none. */
  function ParamId(s: string): (r: Option<nat>)
    ensures r.Some? <==> s != "" && forall i :: 0 <= i < |s| ==> IsDigit(s[i])
    ensures s == "" ==> r.None?
  {
    if s != "" && forall i :: 0 <= i < |s| ==> IsDigit(s[i]) then Some(DigitsValue(s)) else None
  }

  /** The decimal rendering of a row id, as a client puts it in a path. */
  function IdParam(n: nat): (s: string)
    ensures s != [] && forall i :: 0 <= i < |s| ==> IsDigit(s[i])
  {
    var d := ('0' as int + n % 10) as char;
    if n < 10 then [d] else IdParam(n / 10) + [d]
  }

  /** Reading a rendered id gives the id back. */
  lemma {:induction false} IdParamRoundTrip(n: nat)
    ensures ParamId(IdParam(n)) == Some(n)
    decreases n
  {
    var s := IdParam(n);
    if n >= 10 {
      IdParamRoundTrip(n / 10);
      assert s[..|s| - 1] == IdParam(n / 10);
    } else {
      assert s[..|s| - 1] == [];
      assert DigitsValue(s) == s[0] as int - '0' as int == n;
    }
  }

  /** The id check `!id || isNaN(id)` of the admin and event handlers, read
      as "not a non-empty run of decimal digits".  JavaScript's `isNaN` is
      more lenient: it passes surrounding blanks, a sign, a fraction, an
      exponent and a `0x` prefix (`" 7"`, `"-5"`, `"1.5"`, `"0x1A"`), which
      this predicate refuses. */
  predicate MissingOrNaN(s: string)
  {
    ParamId(s).None?
  }
}
