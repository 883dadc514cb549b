/** `handleApiError` (src/lib/apiError.ts): the message shown to the user
    for a rejected call. `data?.message || fallback` treats an absent and an
    empty server message alike. */
module ApiError {
  import opened Wrappers
  import opened Strings
  import opened Http

  const UnauthorizedMessage := "Credenciales incorrectas o sesión expirada."
  const ForbiddenMessage := "No tienes permisos para realizar esta acción."
  const NotFoundMessage := "Recurso no encontrado."
  const ServerErrorMessage := "Error interno del servidor. Intenta más tarde."
  const NoResponseMessage := "No hay respuesta del servidor. Revisa tu conexión."
  const RequestSetupMessage := "Error al enviar la solicitud."
  const UnknownErrorMessage := "Error inesperado."
  const BadRequestMessage := "Solicitud inválida."
  const ConflictMessage := "Conflicto con datos existentes."
  const InvalidDataMessage := "Datos no válidos."
  const GenericErrorMessage := "Ha ocurrido un error inesperado."

  /** The statuses whose message ignores whatever the server said. */
  predicate IsFixedStatus(status: int) {
    status == 401 || status == 403 || status == 404 || status == 500
  }

  /** The fixed message of a fixed status. */
  function FixedMessage(status: int): string
    requires IsFixedStatus(status)
  {
    if status == 401 then UnauthorizedMessage
    else if status == 403 then ForbiddenMessage
    else if status == 404 then NotFoundMessage
    else ServerErrorMessage
  }

  /** The message used for any other status when the server gave none. */
  function FallbackMessage(status: int): string {
    if status == 400 then BadRequestMessage
    else if status == 409 then ConflictMessage
    else if status == 422 then InvalidDataMessage
    else GenericErrorMessage
  }

  function HandleApiError(e: HttpError): (msg: string)
    ensures msg != ""
    ensures e.NonAxiosError? ==> msg == UnknownErrorMessage
    ensures e.AxiosError? && e.response.Some? && IsFixedStatus(e.response.value.status) ==>
      msg == FixedMessage(e.response.value.status)
    ensures e.AxiosError? && e.response.Some? && !IsFixedStatus(e.response.value.status) ==>
      msg == (if Truthy(e.response.value.message) then e.response.value.message.value
              else FallbackMessage(e.response.value.status))
    ensures e.AxiosError? && e.response.None? && e.requestSent ==> msg == NoResponseMessage
    ensures e.AxiosError? && e.response.None? && !e.requestSent ==>
      msg == (if e.message != "" then e.message else RequestSetupMessage)
  {
    match e
    case NonAxiosError => UnknownErrorMessage
    case AxiosError(response, requestSent, message) =>
      match response
      case Some(ErrorResponse(status, data)) =>
        if status == 400 then OrElse(data, BadRequestMessage)
        else if status == 401 then UnauthorizedMessage
        else if status == 403 then ForbiddenMessage
        else if status == 404 then NotFoundMessage
        else if status == 409 then OrElse(data, ConflictMessage)
        else if status == 422 then OrElse(data, InvalidDataMessage)
        else if status == 500 then ServerErrorMessage
        else OrElse(data, GenericErrorMessage)
      case None =>
        if requestSent then NoResponseMessage
        else OrElse(Some(message), RequestSetupMessage)
  }

  /** A server's non-empty message is shown exactly when the status is not
      one of the fixed ones: for fixed statuses two different server
      messages yield the same text, for the others they yield themselves. */
  lemma ServerMessageShownIffNotFixed(status: int, m1: string, m2: string, sent: bool, axiosMsg: string)
    requires m1 != "" && m2 != "" && m1 != m2
    ensures var r1 := HandleApiError(AxiosError(Some(ErrorResponse(status, Some(m1))), sent, axiosMsg));
            var r2 := HandleApiError(AxiosError(Some(ErrorResponse(status, Some(m2))), sent, axiosMsg));
            && (IsFixedStatus(status) <==> r1 == r2)
            && (!IsFixedStatus(status) ==> r1 == m1 && r2 == m2)
  {
  }

  /** An empty server message counts as no message at all. */
  lemma EmptyServerMessageIsAbsent(status: int, sent: bool, axiosMsg: string)
    ensures HandleApiError(AxiosError(Some(ErrorResponse(status, Some(""))), sent, axiosMsg))
         == HandleApiError(AxiosError(Some(ErrorResponse(status, None)), sent, axiosMsg))
  {
  }

  /** A server error other than 500 is not given the generic server-error
      text: its own message, or the unexpected-error fallback, is shown. */
  lemma OtherServerErrorsNotFixed(status: int, sent: bool, axiosMsg: string)
    requires 500 < status < 600
    ensures HandleApiError(AxiosError(Some(ErrorResponse(status, None)), sent, axiosMsg))
         == GenericErrorMessage
  {
  }
}
