/** The developer form's pure parts: the experience input's clamp, the default
    values derived from the developer being edited, and the choice between the
    create and the update call on submit. */
module DeveloperForm {
  import opened Wrappers
  import opened Entities
  import opened DeveloperSchema

  /** What the experience input holds once read: `None` for an empty or
      non-numeric entry, otherwise its integer value. The clamp raises anything
      below 1 to 1 and leaves larger values alone. */
  function ClampExperience(input: Option<int>): (value: int)
    ensures value >= 1
    ensures input.Some? && input.value >= 1 ==> value == input.value
    ensures (input.None? || input.value < 1) ==> value == 1
  {
    match input
    case None => 1
    case Some(n) => if n < 1 then 1 else n
  }

  /** Entering the clamped value again changes nothing. */
  lemma ClampIdempotent(input: Option<int>)
    ensures ClampExperience(Some(ClampExperience(input))) == ClampExperience(input)
  {
  }

  /** The clamp has no upper end: a clamped value meets the schema's experience
      rule iff it is at most 50, so 51 passes the input and is refused on submit. */
  lemma ClampLeavesUpperBoundToSchema(input: Option<int>)
    ensures ValidAnios(ClampExperience(input)) <==> ClampExperience(input) <= 50
    ensures ClampExperience(Some(51)) == 51 && !ValidAnios(51)
  {
  }

  /** The text before the first 'T', or all of it when there is none. */
  function DatePart(s: string): (r: string)
    ensures 'T' !in r
    ensures |r| <= |s| && s[..|r|] == r
    ensures |r| < |s| ==> s[|r|] == 'T'
  {
    if s == [] then []
    else if s[0] == 'T' then []
    else [s[0]] + DatePart(s[1..])
  }

  /** A stored timestamp `day + "T" + time` defaults to its day. */
  lemma {:induction false} DatePartOfTimestamp(day: string, time: string)
    requires 'T' !in day
    ensures DatePart(day + "T" + time) == day
  {
    if day != [] {
      assert (day + "T" + time)[1..] == day[1..] + "T" + time;
      DatePartOfTimestamp(day[1..], time);
    }
  }

  /** A value without a 'T' is its own date part. */
  lemma {:induction false} DatePartWithoutT(s: string)
    requires 'T' !in s
    ensures DatePart(s) == s
  {
    if s != [] {
      DatePartWithoutT(s[1..]);
    }
  }

  /** The form's initial values. Without a developer every text field is empty
      and the experience is 1; with one its fields are copied, the date keeps
      only its part before 'T', and an experience of 0 becomes 1. */
  function DefaultValues(developer: Option<Developer>): (d: DeveloperFormData)
    ensures developer.None? ==> d == DeveloperFormData("", "", "", "", 1)
    ensures developer.Some? ==>
      d.nombre == developer.value.nombre
      && d.rut == developer.value.rut
      && d.correoElectronico == developer.value.correoElectronico
      && d.aniosExperiencia == (if developer.value.aniosExperiencia == 0 then 1 else developer.value.aniosExperiencia)
    ensures 'T' !in d.fechaContratacion
    ensures developer.Some? ==> d.fechaContratacion <= developer.value.fechaContratacion
    ensures developer.Some? ==> d.fechaContratacion == DatePart(developer.value.fechaContratacion)
    ensures d.aniosExperiencia != 0
  {
    match developer
    case None => DeveloperFormData("", "", "", "", 1)
    case Some(dev) =>
      DeveloperFormData(
        dev.nombre,
        dev.rut,
        dev.correoElectronico,
        DatePart(dev.fechaContratacion),
        if dev.aniosExperiencia == 0 then 1 else dev.aniosExperiencia)
  }

  /** Editing a developer stored with a midnight timestamp shows its day. */
  lemma DefaultDateOfStoredTimestamp(dev: Developer, day: string, time: string)
    requires 'T' !in day
    requires dev.fechaContratacion == day + "T" + time
    ensures DefaultValues(Some(dev)).fechaContratacion == day
  {
    DatePartOfTimestamp(day, time);
  }

  datatype FormMode = CreateMode | EditMode

  /** The service call a submit makes. */
  datatype SubmitCall = CreateCall(data: DeveloperFormData) | UpdateCall(id: int, data: DeveloperFormData)

  /** Mode create calls create; any other mode, an absent one included, calls
      update with the edited developer's id. With no developer to take the id
      from, the submit fails before any call and nothing is sent. */
  function SubmitDispatch(mode: Option<FormMode>, developer: Option<Developer>, data: DeveloperFormData): (call: Option<SubmitCall>)
    ensures call.Some? ==> call.value.data == data
    ensures call.Some? && call.value.CreateCall? <==> mode == Some(CreateMode)
    ensures call.Some? && call.value.UpdateCall? <==> mode != Some(CreateMode) && developer.Some?
    ensures call.Some? && call.value.UpdateCall? ==> call.value.id == developer.value.codigoDesarrollador
  {
    if mode == Some(CreateMode) then Some(CreateCall(data))
    else match developer
      case None => None
      case Some(dev) => Some(UpdateCall(dev.codigoDesarrollador, data))
  }
}
