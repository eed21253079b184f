/** The checks the server actions of the characters admin page run before they write anything:
    the administrator gate, the required id, and the validation of the character form. Each action
    is a function from its inputs to the write it would issue, so "no write before the checks pass"
    is the statement that only a Done outcome carries a write. */
module Characters {
  import opened Js
  import opened AdminGate

  const EXP_MIN: real := 0.0
  const EXP_MAX: real := 74.0
  const LEVEL_MIN: real := 1.0

  /** Which store call failed. */
  datatype StoreStep = CountQuery | InsertRecord | SelectLatest | DeleteRecord | SelectPoints | UpdatePoints

  datatype Failure =
    | IdRequired
    | OwnerAndNameRequired
    | ExpOutOfRange
    | LevelTooLow
    | WeeklyLimitReached
    | RpcFailed(code: Option<string>)
    | StoreFailed(step: StoreStep)

  /** The message of the Error a check throws; None for an error of the backend, which is rethrown as it came. */
  function Message(f: Failure): Option<string> {
    match f
    case IdRequired => Some("ID requerido")
    case OwnerAndNameRequired => Some("Owner y Nombre son obligatorios")
    case ExpOutOfRange => Some("EXP debe estar entre 0 y 74")
    case LevelTooLow => Some("Nivel debe ser >= 1")
    case WeeklyLimitReached => Some("Límite semanal de pagos alcanzado (5).")
    case RpcFailed(_) => None
    case StoreFailed(_) => None
  }

  /** The fields of the character form, as submitted (None when absent). */
  datatype CharacterForm = CharacterForm(
    id: Option<string>, owner: Option<string>, name: Option<string>,
    exp: Option<string>, level: Option<string>, items: Option<string>)

  /** The columns createCharacter inserts and updateCharacter overwrites. */
  datatype CharacterFields = CharacterFields(owner: string, name: string, exp: Number, level: Number, items: string)

  datatype CharacterUpdate = CharacterUpdate(id: string, fields: CharacterFields)

  /** `Number.isNaN(exp) || exp < 0 || exp > 74` is false. */
  predicate ExpAccepted(n: Number): (b: bool)
    ensures b <==> n.Finite? && EXP_MIN <= n.value <= EXP_MAX
  {
    !n.NaN? && !LessThan(n, EXP_MIN) && !GreaterThan(n, EXP_MAX)
  }

  /** `Number.isNaN(level) || level < 1` is false; note that Infinity passes. */
  predicate LevelAccepted(n: Number): (b: bool)
    ensures b <==> (n.Finite? && n.value >= LEVEL_MIN) || n.Infinity?
  {
    !n.NaN? && !LessThan(n, LEVEL_MIN)
  }

  /** What a row written by createCharacter or updateCharacter satisfies. */
  ghost predicate WellFormed(c: CharacterFields) {
    c.owner != "" && c.name != "" && Trim(c.owner) == c.owner && Trim(c.name) == c.name
    && c.exp.Finite? && EXP_MIN <= c.exp.value <= EXP_MAX
    && (c.level.Infinity? || (c.level.Finite? && c.level.value >= LEVEL_MIN))
  }

  /** The form fields after reading: owner and name trimmed, EXP defaulting to 0 and level to 1. */
  function ReadFields(form: CharacterForm, toNumber: string -> Number): (c: CharacterFields)
    ensures c.owner == Trim(FieldText(form.owner)) && c.name == Trim(FieldText(form.name))
    ensures c.items == FieldText(form.items)
    ensures FieldText(form.exp) == "" ==> c.exp == Finite(0.0)
    ensures FieldText(form.level) == "" ==> c.level == Finite(1.0)
  {
    CharacterFields(
      Trim(FieldText(form.owner)), Trim(FieldText(form.name)),
      NumberField(form.exp, 0.0, toNumber), NumberField(form.level, 1.0, toNumber),
      FieldText(form.items))
  }

  /** The three checks in the order the source runs them; the first that fails is reported. */
  function CheckFields(c: CharacterFields): (r: Option<Failure>)
    ensures r == None <==> c.owner != "" && c.name != "" && ExpAccepted(c.exp) && LevelAccepted(c.level)
    ensures r == Some(OwnerAndNameRequired) <==> c.owner == "" || c.name == ""
    ensures r == Some(ExpOutOfRange) <==> c.owner != "" && c.name != "" && !ExpAccepted(c.exp)
    ensures r.Some? ==> r.value in {OwnerAndNameRequired, ExpOutOfRange, LevelTooLow}
  {
    if c.owner == "" || c.name == "" then Some(OwnerAndNameRequired)
    else if !ExpAccepted(c.exp) then Some(ExpOutOfRange)
    else if !LevelAccepted(c.level) then Some(LevelTooLow)
    else None
  }

  /** The gate followed by `if (!id) throw new Error('ID requerido')` on the trimmed id field,
      which updateCharacter, deleteCharacter and the payment and event-point actions all run first. */
  function AdminAndId(user: Option<string>, isAdmin: string -> Option<bool>, idField: Option<string>): (o: Outcome<string, Failure>)
    ensures Check(user, isAdmin).Deny? ==> o == Redirected(Check(user, isAdmin).to)
    ensures Check(user, isAdmin).Admit? ==>
      o == (if Trim(FieldText(idField)) == "" then Failed(IdRequired) else Done(Trim(FieldText(idField))))
    ensures o.Done? ==> o.value != "" && Trim(o.value) == o.value
  {
    var id := Trim(FieldText(idField));
    TrimIdempotent(FieldText(idField));
    match Check(user, isAdmin)
    case Deny(p) => Redirected(p)
    case Admit(_) => if id == "" then Failed(IdRequired) else Done(id)
  }

  /** createCharacter: the row to insert, or why nothing is inserted. */
  function CreateCharacter(user: Option<string>, isAdmin: string -> Option<bool>, form: CharacterForm, toNumber: string -> Number): (o: Outcome<CharacterFields, Failure>)
    ensures user.None? ==> o == Redirected(LoginPage)
    ensures user.Some? && isAdmin(user.value) != Some(true) ==> o == Redirected(DashboardPage)
    ensures o.Done? <==> Check(user, isAdmin).Admit? && CheckFields(ReadFields(form, toNumber)).None?
    ensures o.Done? ==> WellFormed(o.value) && o.value == ReadFields(form, toNumber)
    ensures o.Redirected? <==> Check(user, isAdmin).Deny?
    ensures Check(user, isAdmin).Admit? && CheckFields(ReadFields(form, toNumber)).Some? ==>
      o == Failed(CheckFields(ReadFields(form, toNumber)).value)
    ensures o.Failed? ==> o.reason in {OwnerAndNameRequired, ExpOutOfRange, LevelTooLow}
  {
    var g := Check(user, isAdmin);
    if g.Deny? then Redirected(g.to)
    else
      var c := ReadFields(form, toNumber);
      match CheckFields(c)
      case Some(f) => Failed(f)
      case None =>
        TrimIdempotent(FieldText(form.owner));
        TrimIdempotent(FieldText(form.name));
        Done(c)
  }

  /** updateCharacter: the id and columns to overwrite, or why nothing is updated. The id is checked
      before the fields. */
  function UpdateCharacter(user: Option<string>, isAdmin: string -> Option<bool>, form: CharacterForm, toNumber: string -> Number): (o: Outcome<CharacterUpdate, Failure>)
    ensures user.None? ==> o == Redirected(LoginPage)
    ensures user.Some? && isAdmin(user.value) != Some(true) ==> o == Redirected(DashboardPage)
    ensures Check(user, isAdmin).Admit? && Trim(FieldText(form.id)) == "" ==> o == Failed(IdRequired)
    ensures Check(user, isAdmin).Admit? && Trim(FieldText(form.id)) != "" && CheckFields(ReadFields(form, toNumber)).Some? ==>
      o == Failed(CheckFields(ReadFields(form, toNumber)).value)
    ensures o.Done? <==> Check(user, isAdmin).Admit? && Trim(FieldText(form.id)) != ""
                         && CheckFields(ReadFields(form, toNumber)).None?
    ensures o.Done? ==> o.value.id == Trim(FieldText(form.id)) && o.value.fields == ReadFields(form, toNumber)
                        && WellFormed(o.value.fields)
  {
    match AdminAndId(user, isAdmin, form.id)
    case Redirected(p) => Redirected(p)
    case Failed(f) => Failed(f)
    case Done(id) =>
      var c := ReadFields(form, toNumber);
      match CheckFields(c)
      case Some(f) => Failed(f)
      case None =>
        TrimIdempotent(FieldText(form.owner));
        TrimIdempotent(FieldText(form.name));
        Done(CharacterUpdate(id, c))
  }

  /** deleteCharacter: the id of the row to delete, or why nothing is deleted. */
  function DeleteCharacter(user: Option<string>, isAdmin: string -> Option<bool>, idField: Option<string>): (o: Outcome<string, Failure>)
    ensures Check(user, isAdmin).Deny? ==> o == Redirected(Check(user, isAdmin).to)
    ensures Check(user, isAdmin).Admit? && Trim(FieldText(idField)) == "" ==> o == Failed(IdRequired)
    ensures o.Done? <==> Check(user, isAdmin).Admit? && Trim(FieldText(idField)) != ""
    ensures o.Done? ==> o.value == Trim(FieldText(idField)) && o.value != ""
    ensures o.Failed? ==> o.reason == IdRequired
  {
    AdminAndId(user, isAdmin, idField)
  }
}
