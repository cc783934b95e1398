/** What the auth service and the error filter can throw: NestJS
    `HttpException`s, which carry a status and a response payload, and plain
    runtime errors raised by the libraries they call. */
module Exceptions {
  import opened JsValues

  const UNAUTHORIZED := 401
  const UNPROCESSABLE_ENTITY := 422
  const INTERNAL_SERVER_ERROR := 500

  /** The non-HTTP failures that can occur in the modelled code. */
  datatype ErrorKind =
    | PropertyOfNullish         // reading a property of `null` or `undefined` (a TypeError)
    | IllegalHashArguments      // `bcrypt.compare` given a stored hash that is not a string
    | ConfigKeyMissing(key: string)  // `ConfigService.getOrThrow` on an unset key

  /** A thrown value: `getStatus()` and `getResponse()` of an HttpException,
      or any other error. */
  datatype Thrown =
    | HttpException(status: int, response: Value)
    | RuntimeError(kind: ErrorKind)

  /** The 422 that `validateLogin` throws for a business rejection: the body
      `{status: 422, errors: {<field>: <code>}}`. */
  function FieldError(field: string, code: string): Thrown {
    HttpException(UNPROCESSABLE_ENTITY,
      Obj(map["status" := Num(UNPROCESSABLE_ENTITY), "errors" := Obj(map[field := Str(code)])]))
  }

  /** `new UnauthorizedException()`: NestJS gives it the body
      `{message: 'Unauthorized', statusCode: 401}`. */
  function Unauthorized(): Thrown {
    HttpException(UNAUTHORIZED, Obj(map["message" := Str("Unauthorized"), "statusCode" := Num(UNAUTHORIZED)]))
  }

  /** `new HttpException('Internal server error', 500)`: the body is the string itself. */
  function InternalServerError(): Thrown {
    HttpException(INTERNAL_SERVER_ERROR, Str("Internal server error"))
  }
}
