/** The project form's validation schema: three independent field checks and no
    rule relating the two dates. */
module ProjectSchema {
  import opened Strings
  import opened Validation

  datatype ProjectFormData = ProjectFormData(nombre: string, fechaInicio: string, fechaTermino: string)

  datatype Field = Nombre | FechaInicio | FechaTermino

  /** The messages shown under a field that fails a check. */
  const NombreMin := "El nombre debe tener al menos 2 caracteres"
  const NombreMax := "El nombre no puede exceder 50 caracteres"
  const InicioRequired := "Fecha de inicio es requerida"
  const TerminoRequired := "Fecha de término es requerida"

  predicate ValidNombre(s: string) { 2 <= |s| <= 50 }
  predicate ValidFecha(s: string) { |s| >= 1 }

  predicate FieldValid(d: ProjectFormData, f: Field)
  {
    match f
    case Nombre => ValidNombre(d.nombre)
    case FechaInicio => ValidFecha(d.fechaInicio)
    case FechaTermino => ValidFecha(d.fechaTermino)
  }

  /** The record is valid iff every field is. */
  predicate Valid(d: ProjectFormData)
  {
    forall f :: FieldValid(d, f)
  }

  /** The checks of one field, in the order the schema chains them. */
  function FieldIssues(d: ProjectFormData, f: Field): (issues: seq<Issue<Field>>)
    ensures issues == [] <==> FieldValid(d, f)
    ensures forall i :: 0 <= i < |issues| ==> issues[i].path == f
  {
    match f
    case Nombre => CheckBoth(|d.nombre| >= 2, NombreMin, |d.nombre| <= 50, NombreMax, Nombre)
    case FechaInicio => Check(|d.fechaInicio| >= 1, FechaInicio, InicioRequired)
    case FechaTermino => Check(|d.fechaTermino| >= 1, FechaTermino, TerminoRequired)
  }

  /** Every check of every field, in schema order. The record passes iff nothing is
      reported, each reported issue names a failing field, and each failing field
      is reported. */
  function Validate(d: ProjectFormData): (issues: seq<Issue<Field>>)
    ensures issues == [] <==> Valid(d)
    ensures forall i :: 0 <= i < |issues| ==> !FieldValid(d, issues[i].path)
    ensures forall f :: Reports(issues, f) <==> !FieldValid(d, f)
  {
    var nombre := FieldIssues(d, Nombre);
    var inicio := FieldIssues(d, FechaInicio);
    var termino := FieldIssues(d, FechaTermino);
    var issues := nombre + inicio + termino;
    forall f ensures Reports(issues, f) <==> !FieldValid(d, f) {
      ReportsConcat(nombre + inicio, termino, f);
      ReportsConcat(nombre, inicio, f);
      ReportsOwnField(nombre, Nombre, f);
      ReportsOwnField(inicio, FechaInicio, f);
      ReportsOwnField(termino, FechaTermino, f);
    }
    forall i | 0 <= i < |issues| ensures !FieldValid(d, issues[i].path) {
      assert Reports(issues, issues[i].path);
    }
    assert issues != [] ==> Reports(issues, issues[0].path);
    issues
  }

  /** No check relates the two dates: a record whose end date sorts before its
      start date is accepted. */
  lemma EndBeforeStartAccepted()
    ensures exists d :: Validate(d) == [] && StrLess(d.fechaTermino, d.fechaInicio)
  {
    var d := ProjectFormData("Portal", "2024-06-01", "1999-12-31");
    assert d.fechaTermino[0] == '1' && d.fechaInicio[0] == '2';
    assert StrLess(d.fechaTermino, d.fechaInicio);
    assert FieldValid(d, Nombre) && FieldValid(d, FechaInicio) && FieldValid(d, FechaTermino);
    assert Validate(d) == [];
  }
}
