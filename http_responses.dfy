/**
 * The response envelope of src/common/http-responses/index.ts: every helper sends a
 * fixed status code and, except for 204, a body `{status, date, data | error}`.
 * The timestamp `new Date().toISOString()` is passed in as `date`.
 */
module HttpResponses {
  import opened Wrappers
  import opened Json

  /** The body object; `None` stands for a key that is `undefined` and so absent from the JSON. */
  datatype Envelope = Envelope(status: bool, date: string, data: Option<Value>, error: Option<Value>)

  /** What one call of `res.status(code).send(body)` (or `.end()`) puts on the wire. */
  datatype Reply = Reply(code: int, body: Option<Envelope>)

  /** The nine public helpers of `RouteResponse`. */
  datatype Helper =
    | Success | SuccessCreated | SuccessEmpty
    | BadRequest | Unauthorized | Forbidden | NotFound | ConflictError | ServerError

  const UnauthorizedDefault := "Unauthorized"

  /** `setResponse`: the payload goes under `data` on success and under `error` otherwise. */
  function SetResponse(payload: Option<Value>, status: bool, date: string): (e: Envelope)
    ensures e.status == status && e.date == date
    ensures e.data.Some? ==> status
    ensures e.error.Some? ==> !status
  {
    Envelope(status, date, if status then payload else None, if status then None else payload)
  }

  /** The payload a client reads back out of an envelope. */
  function Payload(e: Envelope): Option<Value> {
    if e.status then e.data else e.error
  }

  /** Reading an envelope back yields the payload that was put in, whatever the status. */
  lemma PayloadRoundTrip(payload: Option<Value>, status: bool, date: string)
    ensures Payload(SetResponse(payload, status, date)) == payload
    ensures SetResponse(payload, status, date).data.None? || SetResponse(payload, status, date).error.None?
  {
  }

  /** The status code each helper sends. */
  function Code(h: Helper): (code: int)
    ensures 200 <= code < 600
  {
    match h
    case Success => 200
    case SuccessCreated => 201
    case SuccessEmpty => 204
    case BadRequest => 400
    case Unauthorized => 401
    case Forbidden => 403
    case NotFound => 404
    case ConflictError => 409
    case ServerError => 500
  }

  /** The reply a helper sends for a payload; `SuccessEmpty` ignores the payload and sends no body. */
  function Respond(h: Helper, payload: Option<Value>, date: string): Reply {
    if h == SuccessEmpty then Reply(Code(h), None)
    else Reply(Code(h), Some(SetResponse(payload, Code(h) < 300, date)))
  }

  /**
   * The whole table: codes are distinct, only 204 has no body, the `status` flag is true
   * exactly for the 2xx helpers, and the payload lands in `data` for those and in `error`
   * for the rest.
   */
  lemma {:induction false} RespondTable(h: Helper, h': Helper, payload: Option<Value>, date: string)
    ensures h != h' ==> Code(h) != Code(h')
    ensures Respond(h, payload, date).code == Code(h)
    ensures Respond(h, payload, date).body.None? <==> h == SuccessEmpty
    ensures h != SuccessEmpty ==>
      var e := Respond(h, payload, date).body.value;
      && e.date == date
      && (e.status <==> h in {Success, SuccessCreated})
      && Payload(e) == payload
      && (e.status ==> e.error.None? && e.data == payload)
      && (!e.status ==> e.data.None? && e.error == payload)
  {
    if h != SuccessEmpty {
      PayloadRoundTrip(payload, Code(h) < 300, date);
    }
  }

  /** The HTTP response object; `reply` is what has been sent, if anything. */
  class Response {
    var reply: Option<Reply>

    constructor ()
      ensures reply == None
    {
      reply := None;
    }

    /** `res.status(code).send(...)`. */
    method Send(r: Reply)
      modifies this
      ensures reply == Some(r)
    {
      reply := Some(r);
    }
  }

  method SendSuccess(res: Response, data: Value, date: string)
    modifies res
    ensures res.reply == Some(Respond(Success, Some(data), date))
    ensures res.reply.value.code == 200 && res.reply.value.body.value.data == Some(data)
  {
    res.Send(Respond(Success, Some(data), date));
  }

  /** `successCreated(res, data?)`: `data` may be left out, giving `status: true` and no data. */
  method SendSuccessCreated(res: Response, data: Option<Value>, date: string)
    modifies res
    ensures res.reply == Some(Respond(SuccessCreated, data, date))
    ensures res.reply.value.code == 201 && res.reply.value.body.value.status
    ensures res.reply.value.body.value.data == data
  {
    res.Send(Respond(SuccessCreated, data, date));
  }

  method SendSuccessEmpty(res: Response)
    modifies res
    ensures res.reply == Some(Reply(204, None))
  {
    res.Send(Respond(SuccessEmpty, None, ""));
  }

  method SendBadRequest(res: Response, error: Value, date: string)
    modifies res
    ensures res.reply == Some(Respond(BadRequest, Some(error), date))
    ensures res.reply.value.code == 400 && res.reply.value.body.value.error == Some(error)
  {
    res.Send(Respond(BadRequest, Some(error), date));
  }

  /** `unauthorized(res, message = "Unauthorized")`: a missing message takes the default. */
  method SendUnauthorized(res: Response, message: Option<string>, date: string)
    modifies res
    ensures res.reply == Some(Respond(Unauthorized, Some(Str(message.GetOr(UnauthorizedDefault))), date))
    ensures message.None? ==> res.reply.value.body.value.error == Some(Str("Unauthorized"))
  {
    res.Send(Respond(Unauthorized, Some(Str(message.GetOr(UnauthorizedDefault))), date));
  }

  method SendForbidden(message: string, res: Response, date: string)
    modifies res
    ensures res.reply == Some(Respond(Forbidden, Some(Str(message)), date))
  {
    res.Send(Respond(Forbidden, Some(Str(message)), date));
  }

  method SendNotFound(res: Response, message: string, date: string)
    modifies res
    ensures res.reply == Some(Respond(NotFound, Some(Str(message)), date))
    ensures res.reply.value.code == 404 && !res.reply.value.body.value.status
  {
    res.Send(Respond(NotFound, Some(Str(message)), date));
  }

  method SendConflictError(error: Value, res: Response, date: string)
    modifies res
    ensures res.reply == Some(Respond(ConflictError, Some(error), date))
  {
    res.Send(Respond(ConflictError, Some(error), date));
  }

  method SendServerError(error: Value, res: Response, date: string)
    modifies res
    ensures res.reply == Some(Respond(ServerError, Some(error), date))
  {
    res.Send(Respond(ServerError, Some(error), date));
  }
}
