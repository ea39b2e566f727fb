/** What the six account endpoints do with the HTTP response once the transport
    has returned it: the content-type gate, the choice of a table by status, and
    the run of guarded copies and decodes that builds `parsed_body`. */
module ResponseParsing {
  import opened Json
  import opened Rules
  import opened Context
  import opened AccountEntities
  import opened Status

  datatype Option<T> = None | Some(value: T)

  /** The six methods of `account.EntitySpec`. */
  datatype Endpoint = List | Get | Summary | Instruments | Configure | Changes

  /** How a response key is carried into `parsed_body`. */
  datatype BodyConversion =
    | Copy                         // jbody.get(key)
    | Nested(child: ChildType)     // ctx.<module>.<child>.from_dict(jbody[key], ctx)
    | NestedList(child: ChildType) // [ctx.<module>.<child>.from_dict(d, ctx) for d in ...]
    | Own(kind: Kind)              // ctx.account.<kind>.from_dict(jbody[key], ctx)
    | OwnList(kind: Kind)          // [ctx.account.<kind>.from_dict(d, ctx) for d in ...]

  /** The statements under `if str(response.status) == "200":`, in source order. */
  function SuccessTable(ep: Endpoint): seq<Rule<BodyConversion>>
  {
    match ep
    case List => [Rule("accounts", OwnList(AccountProperties))]
    case Get => [Rule("account", Own(Account)), Rule("lastTransactionID", Copy)]
    case Summary => [Rule("account", Own(AccountSummary)), Rule("lastTransactionID", Copy)]
    case Instruments => [Rule("instruments", NestedList(Instrument))]
    case Configure =>
      [Rule("configureTransaction", Nested(ClientConfigureTransaction)), Rule("lastTransactionID", Copy)]
    case Changes =>
      [Rule("changes", Own(AccountChanges)), Rule("state", Own(AccountState)),
       Rule("lastTransactionID", Copy)]
  }

  /** The statements under `configure`'s `elif str(response.status) == "400":`. */
  function RejectTable(): seq<Rule<BodyConversion>>
  {
    [Rule("configureRejectTransaction", Nested(ClientConfigureRejectTransaction)),
     Rule("lastTransactionID", Copy), Rule("errorCode", Copy), Rule("errorMessage", Copy)]
  }

  /** The standard error response every other status falls into. */
  function ErrorTable(): seq<Rule<BodyConversion>>
  {
    [Rule("errorCode", Copy), Rule("errorMessage", Copy)]
  }

  /** The branch the endpoint takes for a status. */
  function TableFor(ep: Endpoint, status: int): seq<Rule<BodyConversion>>
  {
    if StatusText(status) == "200" then SuccessTable(ep)
    else if ep == Configure && StatusText(status) == "400" then RejectTable()
    else ErrorTable()
  }

  function ConvertBodyField<D, E>(c: BodyConversion, value: Json, ctx: Catalog<D, E>): Result<Value<D, E>>
  {
    match c
    case Copy => Success(Plain(value))
    case Nested(child) =>
      var e :- ctx.decode(child, value);
      Success(Child(e))
    case NestedList(child) =>
      var es :- DecodeList(ctx, child, value);
      Success(Children(es))
    case Own(kind) =>
      var e :- FromJson(kind, value, ctx);
      Success(Record(e))
    case OwnList(kind) =>
      var es :- Iterate(value, x => FromJson(kind, x, ctx));
      Success(Records(es))
  }

  function BodyConverter<D, E>(ctx: Catalog<D, E>): (BodyConversion, Json) -> Result<Value<D, E>>
  {
    (c, value) => ConvertBodyField(c, value, ctx)
  }

  /** `parsed_body` as the chosen branch builds it from `{}`. */
  function ParseBody<D, E>(ep: Endpoint, status: int, jbody: map<string, Json>, ctx: Catalog<D, E>)
    : Result<map<string, Value<D, E>>>
  {
    Apply(TableFor(ep, status), jbody, map[], BodyConverter(ctx))
  }

  /** `response.content_type` is missing or does not start with "application/json". */
  predicate NotJson(contentType: Option<string>)
  {
    contentType.None? || !("application/json" <= contentType.value)
  }

  /** What the endpoint leaves in `response.body`: `None` when the response is
      handed back unparsed, the parsed body otherwise; a decoder that raises
      aborts the call. */
  function ParseResponse<D, E>(ep: Endpoint, contentType: Option<string>, status: int,
                               jbody: map<string, Json>, ctx: Catalog<D, E>)
    : Result<Option<map<string, Value<D, E>>>>
  {
    if NotJson(contentType) then Success(None)
    else
      var body :- ParseBody(ep, status, jbody, ctx);
      Success(Some(body))
  }
}
