/** The developer form's validation schema: each field's constraints, the issues
    reported for a record, and validity as the absence of issues. The email-shape
    check belongs to the validation library and is a parameter here. */
module DeveloperSchema {
  import opened Validation

  datatype DeveloperFormData = DeveloperFormData(
    nombre: string,
    rut: string,
    correoElectronico: string,
    fechaContratacion: string,
    aniosExperiencia: int)

  datatype Field = Nombre | Rut | CorreoElectronico | FechaContratacion | AniosExperiencia

  /** The fields in the order the schema declares them. */
  const SchemaOrder: seq<Field> := [Nombre, Rut, CorreoElectronico, FechaContratacion, AniosExperiencia]

  /** The messages shown under a field that fails a check. */
  const NombreMin := "El nombre debe tener al menos 2 caracteres"
  const NombreMax := "El nombre no puede exceder 200 caracteres"
  const RutMin := "RUT inválido"
  const RutMax := "RUT no puede exceder 10 caracteres"
  const EmailFormat := "Email inválido"
  const EmailMax := "Email no puede exceder 100 caracteres"
  const FechaRequired := "Fecha de contratación es requerida"
  const AniosMin := "Los años de experiencia no pueden ser negativos ni 0"
  const AniosMax := "Años de experiencia no pueden exceder 50"

  predicate ValidNombre(s: string) { 2 <= |s| <= 200 }
  predicate ValidRut(s: string) { 7 <= |s| <= 10 }
  predicate ValidCorreo(s: string, isEmail: string -> bool) { isEmail(s) && |s| <= 100 }
  predicate ValidFecha(s: string) { |s| >= 1 }
  predicate ValidAnios(n: int) { 1 <= n <= 50 }

  predicate FieldValid(d: DeveloperFormData, f: Field, isEmail: string -> bool)
  {
    match f
    case Nombre => ValidNombre(d.nombre)
    case Rut => ValidRut(d.rut)
    case CorreoElectronico => ValidCorreo(d.correoElectronico, isEmail)
    case FechaContratacion => ValidFecha(d.fechaContratacion)
    case AniosExperiencia => ValidAnios(d.aniosExperiencia)
  }

  /** The record is valid iff every field is. */
  predicate Valid(d: DeveloperFormData, isEmail: string -> bool)
  {
    forall f :: FieldValid(d, f, isEmail)
  }

  /** The checks of one field, in the order the schema chains them. */
  function FieldIssues(d: DeveloperFormData, f: Field, isEmail: string -> bool): (issues: seq<Issue<Field>>)
    ensures issues == [] <==> FieldValid(d, f, isEmail)
    ensures forall i :: 0 <= i < |issues| ==> issues[i].path == f
  {
    match f
    case Nombre =>
      CheckBoth(|d.nombre| >= 2, NombreMin,
                |d.nombre| <= 200, NombreMax, Nombre)
    case Rut =>
      CheckBoth(|d.rut| >= 7, RutMin,
                |d.rut| <= 10, RutMax, Rut)
    case CorreoElectronico =>
      CheckBoth(isEmail(d.correoElectronico), EmailFormat,
                |d.correoElectronico| <= 100, EmailMax, CorreoElectronico)
    case FechaContratacion =>
      Check(|d.fechaContratacion| >= 1, FechaContratacion, FechaRequired)
    case AniosExperiencia =>
      CheckBoth(d.aniosExperiencia >= 1, AniosMin,
                d.aniosExperiencia <= 50, AniosMax, AniosExperiencia)
  }

  /** The issues of the listed fields, field after field. */
  function IssuesOf(d: DeveloperFormData, fields: seq<Field>, isEmail: string -> bool): (issues: seq<Issue<Field>>)
    ensures forall i :: 0 <= i < |issues| ==> !FieldValid(d, issues[i].path, isEmail)
    ensures forall f :: Reports(issues, f) <==> f in fields && !FieldValid(d, f, isEmail)
  {
    if fields == [] then []
    else
      var head := FieldIssues(d, fields[0], isEmail);
      var rest := IssuesOf(d, fields[1..], isEmail);
      assert forall f :: f in fields <==> f == fields[0] || f in fields[1..];
      forall f ensures Reports(head, f) <==> f == fields[0] && !FieldValid(d, f, isEmail) {
        ReportsOwnField(head, fields[0], f);
      }
      forall f ensures Reports(head + rest, f) <==> Reports(head, f) || Reports(rest, f) {
        ReportsConcat(head, rest, f);
      }
      head + rest
  }

  lemma AllFieldsListed(f: Field)
    ensures f in SchemaOrder
  {
    match f
    case Nombre => assert SchemaOrder[0] == f;
    case Rut => assert SchemaOrder[1] == f;
    case CorreoElectronico => assert SchemaOrder[2] == f;
    case FechaContratacion => assert SchemaOrder[3] == f;
    case AniosExperiencia => assert SchemaOrder[4] == f;
  }

  /** Validation of a whole record: every check of every field, in schema order.
      The record passes iff nothing is reported, each reported issue names a
      field that does fail, and each failing field is reported. */
  function Validate(d: DeveloperFormData, isEmail: string -> bool): (issues: seq<Issue<Field>>)
    ensures issues == [] <==> Valid(d, isEmail)
    ensures forall i :: 0 <= i < |issues| ==> !FieldValid(d, issues[i].path, isEmail)
    ensures forall f :: Reports(issues, f) <==> !FieldValid(d, f, isEmail)
  {
    forall f: Field ensures f in SchemaOrder { AllFieldsListed(f); }
    var issues := IssuesOf(d, SchemaOrder, isEmail);
    assert issues != [] ==> Reports(issues, issues[0].path);
    issues
  }
}
