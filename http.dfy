/** JavaScript values as the two serverless handlers see them, and the JSON
    responses they write. Shared by `CheckoutSession` and `Subscribe`. */
module Http {
  import opened Wrappers

  /** A property read from a parsed JSON body or from `process.env`: it may be
      missing (`undefined`), `null`, or hold a value. */
  datatype Js<+T> = Undefined | Null | Value(v: T)

  /** JavaScript truthiness of a string-valued property: `undefined`, `null`
      and the empty string are falsy. */
  predicate Truthy(s: Js<string>) {
    s.Value? && s.v != ""
  }

  /** `s || fallback` for a string-valued property. */
  function OrElse(s: Js<string>, fallback: string): string {
    if Truthy(s) then s.v else fallback
  }

  /** How a template literal `${s}` renders a string-valued property. */
  function Interpolate(s: Js<string>): string {
    match s
    case Undefined => "undefined"
    case Null => "null"
    case Value(v) => v
  }

  /** The JSON values that appear in the handlers' response bodies. */
  datatype Json = JStr(str: string) | JBool(b: bool)

  /** `res.status(status).json(body)`: the body is a JSON object whose
      properties appear in the order the handler lists them. */
  datatype Response = Response(status: int, body: seq<(string, Json)>)

  const MethodNotAllowed := Response(405, [("message", JStr("Method not allowed"))])

  const InternalServerError := "Internal server error"

  /** The `error` property of a 500 response: the thrown error's message only
      when `NODE_ENV` is exactly "development". */
  function ErrorDetail(nodeEnv: Js<string>, message: string): string {
    if nodeEnv == Value("development") then message else InternalServerError
  }

  /** The message a V8 engine gives the TypeError thrown when destructuring
      `req.body` fails because the body is `null` or `undefined`. */
  function DestructureErrorMessage(property: string, bodyIsNull: bool): string {
    "Cannot destructure property '" + property + "' of 'req.body' as it is "
    + (if bodyIsNull then "null." else "undefined.")
  }
}
