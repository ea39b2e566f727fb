/** `account.EntitySpec`: the six API methods, from the moment the transport has
    returned the response object to the moment the method returns it. The
    request they send and the transport are not part of this model: each method
    receives the response the transport produced. */
module AccountApi {
  import opened Json
  import opened Rules
  import opened Context
  import opened AccountEntities
  import opened ResponseParsing

  /** The response object the transport hands back. Only `body` is written by
      the account module. `payload` is what `json.loads(response.raw_body)`
      yields; this model assumes it is a JSON object. */
  class Response<D, E> {
    const status: int
    const contentType: Option<string>
    const payload: map<string, Json>
    var body: Option<map<string, Value<D, E>>>

    constructor(status: int, contentType: Option<string>, payload: map<string, Json>)
      ensures this.status == status && this.contentType == contentType && this.payload == payload
      ensures body == None
    {
      this.status := status;
      this.contentType := contentType;
      this.payload := payload;
      body := None;
    }
  }

  /** The outcome of an endpoint call on `response`, given the body before
      (`before`) and after (`after`) the call: `ParseResponse` decides it. A
      parse that raises leaves the body as it was; an unparsed response keeps its
      body; a parsed one gets the new body. On success the same response object
      is returned. */
  ghost predicate Answered<D, E>(ep: Endpoint, ctx: Catalog<D, E>, response: Response<D, E>,
                                 before: Option<map<string, Value<D, E>>>,
                                 after: Option<map<string, Value<D, E>>>, r: Result<Response<D, E>>)
  {
    var p := ParseResponse(ep, response.contentType, response.status, response.payload, ctx);
    && (p.Failure? ==> r == Failure(p.error) && after == before)
    && (p.Success? ==> r == Success(response) && after == (if p.value.Some? then p.value else before))
  }

  class EntitySpec<D, E> {
    const ctx: Catalog<D, E>

    constructor(ctx: Catalog<D, E>)
      ensures this.ctx == ctx
    {
      this.ctx := ctx;
    }

    /** The shared tail of every endpoint: the content-type gate, then
        `parsed_body` built from `{}` by the branch the status selects, then
        `response.body = parsed_body`. */
    method Respond(ep: Endpoint, response: Response<D, E>) returns (r: Result<Response<D, E>>)
      modifies response`body
      ensures Answered(ep, ctx, response, old(response.body), response.body, r)
    {
      if response.contentType.None? {
        return Success(response);
      }
      if !("application/json" <= response.contentType.value) {
        return Success(response);
      }
      var parsed :- ParseBody(ep, response.status, response.payload, ctx);
      response.body := Some(parsed);
      r := Success(response);
    }

    /** `GET /v3/accounts`. */
    method List(response: Response<D, E>) returns (r: Result<Response<D, E>>)
      modifies response`body
      ensures Answered(Endpoint.List, ctx, response, old(response.body), response.body, r)
    {
      r := Respond(Endpoint.List, response);
    }

    /** `GET /v3/accounts/{accountID}`. */
    method Get(response: Response<D, E>) returns (r: Result<Response<D, E>>)
      modifies response`body
      ensures Answered(Endpoint.Get, ctx, response, old(response.body), response.body, r)
    {
      r := Respond(Endpoint.Get, response);
    }

    /** `GET /v3/accounts/{accountID}/summary`. */
    method Summary(response: Response<D, E>) returns (r: Result<Response<D, E>>)
      modifies response`body
      ensures Answered(Endpoint.Summary, ctx, response, old(response.body), response.body, r)
    {
      r := Respond(Endpoint.Summary, response);
    }

    /** `GET /v3/accounts/{accountID}/instruments`. */
    method Instruments(response: Response<D, E>) returns (r: Result<Response<D, E>>)
      modifies response`body
      ensures Answered(Endpoint.Instruments, ctx, response, old(response.body), response.body, r)
    {
      r := Respond(Endpoint.Instruments, response);
    }

    /** `PATCH /v3/accounts/{accountID}/configuration`. */
    method Configure(response: Response<D, E>) returns (r: Result<Response<D, E>>)
      modifies response`body
      ensures Answered(Endpoint.Configure, ctx, response, old(response.body), response.body, r)
    {
      r := Respond(Endpoint.Configure, response);
    }

    /** `GET /v3/accounts/{accountID}/changes`. */
    method Changes(response: Response<D, E>) returns (r: Result<Response<D, E>>)
      modifies response`body
      ensures Answered(Endpoint.Changes, ctx, response, old(response.body), response.body, r)
    {
      r := Respond(Endpoint.Changes, response);
    }
  }
}
