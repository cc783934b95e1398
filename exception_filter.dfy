/** `HttpExceptionFilter.catch`: turns an HttpException's status and response
    payload into the uniform error envelope `{success, code, errors?, message}`.
    The write of the envelope to the Express response is not modelled. */
module HttpExceptionFilter {
  import opened Wrappers
  import opened JsValues
  import opened Exceptions

  /** The reverse table of NestJS's `HttpStatus` enum, from code to name. */
  type StatusNames = map<int, string>

  /** `HttpStatus[status]`: the enum member's name, or `undefined` for a code
      the enum does not list. */
  function StatusName(names: StatusNames, status: int): Value {
    if status in names then Str(names[status]) else Undefined
  }

  /** The envelope object built by the filter. `errors` is set only when the
      filter assigns it; a `message` of `undefined` is dropped when the object
      is serialised (see Body). */
  datatype Envelope = Envelope(success: bool, code: int, errors: Option<Value>, message: Value)

  /** The filter's body, step by step: `errorMessage` from a non-array object
      payload's `errors`, then the envelope, then its `message`. A `null`
      payload makes `message['errors']` throw; an `undefined` one makes
      `message['message']` throw. */
  function Catch(status: int, payload: Value, names: StatusNames): (r: Result<Envelope, Thrown>)
    ensures r.Failure? <==> payload.Null? || payload.Undefined?
    ensures r.Failure? ==> r.error == RuntimeError(PropertyOfNullish)
    ensures r.Success? ==> !r.value.success && r.value.code == status
    ensures r.Success? ==>
              (r.value.errors.Some? <==> payload.Obj? && "errors" in payload.fields && Truthy(payload.fields["errors"]))
    ensures r.Success? && r.value.errors.Some? ==> r.value.errors.value == payload.fields["errors"]
    ensures payload.Str? ==> r == Success(Envelope(false, status, None, payload))
    ensures payload.Arr? || payload.Num? || payload.Bool? ==>
              r == Success(Envelope(false, status, None, StatusName(names, status)))
    ensures payload.Obj? ==>
              && r.Success?
              && r.value.message == (if "message" in payload.fields && Truthy(payload.fields["message"])
                                     then payload.fields["message"] else StatusName(names, status))
  {
    if payload.Null? then
      Failure(RuntimeError(PropertyOfNullish))
    else
      var errorMessage := if payload.Obj? then Or(Property(payload, "errors"), Null) else Null;
      var errors := if errorMessage != Null then Some(errorMessage) else None;
      if payload.Undefined? then
        Failure(RuntimeError(PropertyOfNullish))
      else
        var message := if payload.Str? then payload else Or(Property(payload, "message"), StatusName(names, status));
        Success(Envelope(false, status, errors, message))
  }

  /** The envelope as `JSON.stringify` sends it: a key whose value is
      `undefined` is left out. */
  function Body(e: Envelope): (body: map<string, Value>)
    ensures body.Keys <= {"success", "code", "errors", "message"}
    ensures "success" in body && body["success"] == Bool(e.success)
    ensures "code" in body && body["code"] == Num(e.code)
    ensures "errors" in body <==> e.errors.Some?
    ensures e.errors.Some? ==> body["errors"] == e.errors.value
    ensures "message" in body <==> !e.message.Undefined?
    ensures "message" in body ==> body["message"] == e.message
  {
    var head := map["success" := Bool(e.success), "code" := Num(e.code)];
    var withErrors := if e.errors.Some? then head["errors" := e.errors.value] else head;
    if e.message.Undefined? then withErrors else withErrors["message" := e.message]
  }

  /** The body sent for any payload the filter accepts has exactly the keys
      `success` (always false), `code`, `errors` when the payload is an object
      with truthy `errors`, and `message` unless it is `undefined`; no key of
      the payload (such as `status` or `statusCode`) leaks through otherwise. */
  lemma EnvelopeKeys(status: int, payload: Value, names: StatusNames)
    requires !payload.Null? && !payload.Undefined?
    ensures Catch(status, payload, names).Success?
    ensures var body := Body(Catch(status, payload, names).value);
      && body.Keys == {"success", "code"}
                      + (if payload.Obj? && "errors" in payload.fields && Truthy(payload.fields["errors"]) then {"errors"} else {})
                      + (if Catch(status, payload, names).value.message.Undefined? then {} else {"message"})
      && body["success"] == Bool(false)
      && body["code"] == Num(status)
  {
  }

  /** The message sent is a string whenever the status has a name and the
      payload is a string, an array, or an object whose `message`, if it has
      one, is a string. */
  lemma MessageIsText(status: int, payload: Value, names: StatusNames)
    requires status in names
    requires payload.Str? || payload.Arr? || (payload.Obj? && ("message" in payload.fields ==> payload.fields["message"].Str?))
    ensures Catch(status, payload, names).Success?
    ensures Catch(status, payload, names).value.message.Str?
  {
  }
}
