/** The two records the dashboard lists, with the field names the remote API uses. */
module Entities {

  /** A developer; `registroActivo == false` is a soft-deleted developer that is still listed. */
  datatype Developer = Developer(
    codigoDesarrollador: int,
    nombre: string,
    rut: string,
    correoElectronico: string,
    fechaContratacion: string,
    aniosExperiencia: int,
    registroActivo: bool)

  /** A project; dates are the ISO 8601 strings the API sends. */
  datatype Project = Project(
    codigoProyecto: int,
    nombre: string,
    fechaInicio: string,
    fechaTermino: string,
    registroActivo: bool)
}
