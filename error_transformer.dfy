/** Turning whatever a service caught into a `BFFErrorDTO`: a machine code
    chosen from the error's class or status, the error's own message, and a
    message for the user looked up from the code. */
module ErrorTransformer {
  import opened Text
  import opened Http
  import opened BffTypes

  const TIMEOUT := "TIMEOUT"
  const NETWORK_ERROR := "NETWORK_ERROR"
  const NOT_FOUND := "NOT_FOUND"
  const UNAUTHORIZED := "UNAUTHORIZED"
  const FORBIDDEN := "FORBIDDEN"
  const BAD_REQUEST := "BAD_REQUEST"
  const SERVER_ERROR := "SERVER_ERROR"
  const UNKNOWN_ERROR := "UNKNOWN_ERROR"

  /** The user-facing message of each code. */
  const Messages: map<string, string> := map[
    TIMEOUT := "Запит занадто довго виконувався. Спробуйте пізніше.",
    NETWORK_ERROR := "Помилка з'єднання. Перевірте інтернет-з'єднання.",
    NOT_FOUND := "Запитувані дані не знайдено.",
    UNAUTHORIZED := "Необхідна авторизація.",
    FORBIDDEN := "У вас немає доступу до цього ресурсу.",
    BAD_REQUEST := "Некоректний запит.",
    SERVER_ERROR := "Помилка сервера. Спробуйте пізніше.",
    UNKNOWN_ERROR := "Виникла непередбачена помилка."
  ]

  predicate IsError(t: Thrown) {
    t.ApiFailure? || t.PlainError?
  }

  /** `getErrorCode`: the timeout and network classes win over any status;
      otherwise 404, 401, 403, 400 and every status from 500 up have their
      own code (client and server errors of sections 15.5 and 15.6 of
      RFC 9110), and everything else, an absent status or 0 included, is
      UNKNOWN_ERROR. */
  function GetErrorCode(error: Thrown, statusCode: Option<int>): (code: string)
    requires IsError(error)
    ensures code in Messages
    ensures error.ApiFailure? && error.error.TimeoutError? ==> code == TIMEOUT
    ensures error.ApiFailure? && error.error.NetworkError? ==> code == NETWORK_ERROR
    ensures !(error.ApiFailure? && (error.error.TimeoutError? || error.error.NetworkError?)) ==>
      code == StatusCode(statusCode)
  {
    if error.ApiFailure? && error.error.TimeoutError? then TIMEOUT
    else if error.ApiFailure? && error.error.NetworkError? then NETWORK_ERROR
    else if TruthyInt(statusCode) then
      var s := statusCode.value;
      if s == 404 then NOT_FOUND
      else if s == 401 then UNAUTHORIZED
      else if s == 403 then FORBIDDEN
      else if s == 400 then BAD_REQUEST
      else if s >= 500 then SERVER_ERROR
      else UNKNOWN_ERROR
    else UNKNOWN_ERROR
  }

  /** The status part of the code table, as a reference lookup. */
  function StatusCode(statusCode: Option<int>): (code: string)
    ensures statusCode == Some(404) ==> code == NOT_FOUND
    ensures statusCode == Some(401) ==> code == UNAUTHORIZED
    ensures statusCode == Some(403) ==> code == FORBIDDEN
    ensures statusCode == Some(400) ==> code == BAD_REQUEST
    ensures statusCode.Some? && statusCode.value >= 500 ==> code == SERVER_ERROR
    ensures (statusCode.None? || (statusCode.value !in {400, 401, 403, 404} && statusCode.value < 500)) ==>
      code == UNKNOWN_ERROR
  {
    match statusCode
    case None => UNKNOWN_ERROR
    case Some(s) =>
      if s >= 500 then SERVER_ERROR
      else if s == 400 then BAD_REQUEST
      else if s == 401 then UNAUTHORIZED
      else if s == 403 then FORBIDDEN
      else if s == 404 then NOT_FOUND
      else UNKNOWN_ERROR
  }

  /** `getUserMessage`: every listed code has its message, and any other
      code gets the UNKNOWN_ERROR message. */
  function GetUserMessage(code: string): (m: string)
    ensures code in Messages ==> m == Messages[code]
    ensures code !in Messages ==> m == Messages[UNKNOWN_ERROR]
    ensures m != ""
  {
    if code in Messages && Messages[code] != "" then Messages[code] else Messages[UNKNOWN_ERROR]
  }

  /** `transformError`: an `ApiClientError` (of any of the three classes)
      passes its message and status on, any other `Error` its message with
      UNKNOWN_ERROR, a thrown string becomes the message, anything else
      "Unknown error occurred". The result is always a failure whose user
      message belongs to its code. */
  function TransformError<T>(error: Thrown): (r: BFFResponse<T>)
    ensures r.Failure?
    ensures r.error.userMessage == GetUserMessage(r.error.code)
    ensures r.error.code in Messages
    ensures error.ApiFailure? ==> r.error.message == error.error.message
    ensures error.ApiFailure? && error.error.ApiClientError? ==> r.error.code == StatusCode(error.error.statusCode)
    ensures error.ApiFailure? && error.error.TimeoutError? ==> r.error.code == TIMEOUT
    ensures error.ApiFailure? && error.error.NetworkError? ==> r.error.code == NETWORK_ERROR
    ensures error.PlainError? ==> r.error == ErrorInfo(UNKNOWN_ERROR, error.message, Messages[UNKNOWN_ERROR])
    ensures error.ThrownString? ==> r.error == ErrorInfo(UNKNOWN_ERROR, error.s, Messages[UNKNOWN_ERROR])
    ensures error.ThrownOther? ==> r.error == ErrorInfo(UNKNOWN_ERROR, "Unknown error occurred", Messages[UNKNOWN_ERROR])
  {
    var (code, message) :=
      match error
      case ApiFailure(e) =>
        var statusCode := if e.ApiClientError? then e.statusCode else None;
        (GetErrorCode(error, statusCode), e.message)
      case PlainError(m) => (GetErrorCode(error, None), m)
      case ThrownString(s) => (UNKNOWN_ERROR, s)
      case ThrownOther => (UNKNOWN_ERROR, "Unknown error occurred");
    Failure(ErrorInfo(code, message, GetUserMessage(code)))
  }
}
