/** The shape of the services' HTTP answers: a status code with either a value or
    an error message (plus the validation issues that caused it). */
module Http {

  const OK := 200
  const Created := 201
  const BadRequest := 400
  const NotFound := 404

  const InvalidIdMessage := "ID inv\U{E1}lido"
  const NotFoundMessage := "No encontrado"
  const InvalidDataMessage := "Datos inv\U{E1}lidos"

  datatype Reply<T> =
    | Success(status: nat, value: T)
    | Failure(status: nat, message: string, issues: seq<string>)

  /** 400 'ID inválido': an id that is not a valid object id. */
  function InvalidId<T>(): Reply<T> { Failure(BadRequest, InvalidIdMessage, []) }

  /** 404 'No encontrado'. */
  function Missing<T>(): Reply<T> { Failure(NotFound, NotFoundMessage, []) }

  /** 400 'Datos inválidos' with the validation issues. */
  function Invalid<T>(issues: seq<string>): Reply<T> { Failure(BadRequest, InvalidDataMessage, issues) }

  /** The body of a `GET /health` answer. */
  datatype HealthReport = HealthReport(ok: bool, service: string)
}
