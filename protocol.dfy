/** What the sign-in and sign-up forms share: the captured image, the server's
    response as the client observes it, and the three-way outcome that both
    submit handlers choose between. */
module Protocol {

  /** A still frame as the webcam's `getScreenshot()` hands it over: an opaque
      base64 JPEG data URI. Nothing in the client looks inside it. */
  datatype Image = Jpeg(dataUri: string)

  /** A value that may be `null` in the source. */
  datatype Option<T> = None | Some(value: T)

  /** A JavaScript value, as found in the `success` property of a response body. */
  datatype JsValue =
    | Undefined        // the property is absent
    | Null
    | Bool(b: bool)
    | Number(n: real)
    | NaN
    | Str(s: string)
    | Object           // any object or array

  /** JavaScript truthiness: what `if (v)` tests. */
  predicate Truthy(v: JsValue)
  {
    match v
    case Undefined => false
    case Null => false
    case Bool(b) => b
    case Number(n) => n != 0.0
    case NaN => false
    case Str(s) => s != ""
    case Object => true
  }

  /** The falsy values of JavaScript, listed independently of `Truthy`:
      exactly these make `if (v)` take its else branch. */
  lemma FalsyValues(v: JsValue)
    ensures !Truthy(v) <==> v in {Undefined, Null, Bool(false), Number(0.0), NaN, Str("")}
  {
  }

  /** The `data` of an axios response: either `null`/`undefined`, or a value whose
      `success` property the handler reads (a body that is not an object, or an
      object without that property, reads as `Undefined`). */
  datatype Body = Nullish | Value(success: JsValue)

  /** The awaited `axios.post(...)`: it either threw (network failure, a non-2xx
      status, a request that could not be sent) or resolved with a body. */
  datatype Response = Threw | Arrived(data: Body)

  /** Which of the three alerts a submit handler shows. */
  datatype Outcome = Success | Rejected | TransportError

  /** The `try { if (response.data.success) ... else ... } catch ...` of both
      submit handlers. Reading `.success` of a nullish body throws inside the
      `try`, so it lands in the same `catch` as a failed request. */
  function ToOutcome(response: Response): (o: Outcome)
    ensures o == Success <==> response.Arrived? && response.data.Value? && Truthy(response.data.success)
    ensures o == Rejected <==> response.Arrived? && response.data.Value? && !Truthy(response.data.success)
    ensures o == TransportError <==> response.Threw? || response.data.Nullish?
  {
    match response
    case Threw => TransportError
    case Arrived(Nullish) => TransportError
    case Arrived(Value(flag)) => if Truthy(flag) then Success else Rejected
  }

  /** The case the server is written for: a JSON body `{success: b, ...}` with a
      boolean flag gives Success for true and Rejected for false; an absent
      flag gives Rejected; a request that threw gives TransportError. */
  lemma BooleanFlagOutcomes(b: bool)
    ensures ToOutcome(Arrived(Value(Bool(b)))) == (if b then Success else Rejected)
    ensures ToOutcome(Arrived(Value(Undefined))) == Rejected
    ensures ToOutcome(Threw) == TransportError
  {
  }
}
