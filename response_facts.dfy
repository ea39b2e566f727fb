/** What the endpoints promise about `response.body`, stated against reference
    tables that map each response key to what is stored under it. */
module ResponseFacts {
  import opened Json
  import opened Rules
  import opened Context
  import opened AccountEntities
  import opened Status
  import opened ResponseParsing

  /** The keys a 200 response of each endpoint carries into the body. */
  function SuccessFields(ep: Endpoint): map<string, BodyConversion>
  {
    match ep
    case List => map["accounts" := OwnList(AccountProperties)]
    case Get => map["account" := Own(Account), "lastTransactionID" := Copy]
    case Summary => map["account" := Own(AccountSummary), "lastTransactionID" := Copy]
    case Instruments => map["instruments" := NestedList(Instrument)]
    case Configure =>
      map["configureTransaction" := Nested(ClientConfigureTransaction), "lastTransactionID" := Copy]
    case Changes =>
      map["changes" := Own(AccountChanges), "state" := Own(AccountState), "lastTransactionID" := Copy]
  }

  /** The keys a 400 response of `configure` carries into the body. */
  function RejectFields(): map<string, BodyConversion>
  {
    map["configureRejectTransaction" := Nested(ClientConfigureRejectTransaction),
        "lastTransactionID" := Copy, "errorCode" := Copy, "errorMessage" := Copy]
  }

  /** The keys of the standard error response. */
  function ErrorFields(): map<string, BodyConversion>
  {
    map["errorCode" := Copy, "errorMessage" := Copy]
  }

  lemma SuccessTabulated(ep: Endpoint)
    ensures Tabulates(SuccessTable(ep), SuccessFields(ep))
  {
    match ep {
      case List =>
      case Get =>
      case Summary =>
      case Instruments =>
      case Configure =>
      case Changes =>
    }
  }

  lemma RejectTabulated()
    ensures Tabulates(RejectTable(), RejectFields())
  {
  }

  lemma ErrorTabulated()
    ensures Tabulates(ErrorTable(), ErrorFields())
  {
  }

  /** The branch taken is decided by the status number: 200 for the success
      table, 400 for `configure`'s reject table, anything else for the standard
      error response. */
  lemma TableForStatus(ep: Endpoint, status: int)
    ensures status == 200 ==> TableFor(ep, status) == SuccessTable(ep)
    ensures status == 400 && ep == Configure ==> TableFor(ep, status) == RejectTable()
    ensures status != 200 && !(status == 400 && ep == Configure) ==> TableFor(ep, status) == ErrorTable()
  {
    StatusIs(status);
  }

  /** A response whose content type is missing or not JSON is handed back with
      its body untouched; a JSON response always has its body replaced unless a
      decoder raises. */
  lemma ContentGate<D, E>(ep: Endpoint, contentType: Option<string>, status: int,
                          jbody: map<string, Json>, ctx: Catalog<D, E>)
    ensures NotJson(contentType) ==> ParseResponse(ep, contentType, status, jbody, ctx) == Success(None)
    ensures !NotJson(contentType) ==>
      ParseResponse(ep, contentType, status, jbody, ctx) != Success(None) &&
      (ParseResponse(ep, contentType, status, jbody, ctx).Failure? <==> ParseBody(ep, status, jbody, ctx).Failure?)
    ensures contentType == Some("application/json; charset=UTF-8") ==> !NotJson(contentType)
    ensures contentType == Some("text/html") ==> NotJson(contentType)
  {
  }

  /** A 200 response: the body holds exactly the endpoint's keys that are set in
      the JSON, each converted as the endpoint's table says, and never
      `errorCode`; parsing raises exactly when one of those conversions does. */
  lemma {:induction false} SuccessBody<D, E>(ep: Endpoint, jbody: map<string, Json>, ctx: Catalog<D, E>)
    ensures var r := ParseBody(ep, 200, jbody, ctx);
      && (r.Success? ==> forall k :: k in r.value <==> k in SuccessFields(ep) && IsSet(jbody, k))
      && (r.Success? ==> forall k :: k in r.value ==>
            k in SuccessFields(ep) && ConvertBodyField(SuccessFields(ep)[k], jbody[k], ctx) == Success(r.value[k]))
      && (r.Success? ==> "errorCode" !in r.value && "errorMessage" !in r.value)
      && (r.Failure? <==>
            exists k :: k in SuccessFields(ep) && IsSet(jbody, k) &&
              ConvertBodyField(SuccessFields(ep)[k], jbody[k], ctx).Failure?)
  {
    TableForStatus(ep, 200);
    SuccessTabulated(ep);
    ApplyTabulated(SuccessTable(ep), SuccessFields(ep), jbody, BodyConverter(ctx));
  }

  /** A 400 response to `configure`: the body holds exactly the reject
      transaction, last transaction ID, error code and error message that are set
      in the JSON, and never a `configureTransaction`. */
  lemma {:induction false} RejectBody<D, E>(jbody: map<string, Json>, ctx: Catalog<D, E>)
    ensures var r := ParseBody(Configure, 400, jbody, ctx);
      && (r.Success? ==> forall k :: k in r.value <==> k in RejectFields() && IsSet(jbody, k))
      && (r.Success? ==> forall k :: k in r.value ==>
            k in RejectFields() && ConvertBodyField(RejectFields()[k], jbody[k], ctx) == Success(r.value[k]))
      && (r.Success? ==> "configureTransaction" !in r.value)
      && (r.Failure? <==>
            (IsSet(jbody, "configureRejectTransaction") &&
             ctx.decode(ClientConfigureRejectTransaction, jbody["configureRejectTransaction"]).Failure?))
  {
    TableForStatus(Configure, 400);
    RejectTabulated();
    ApplyTabulated(RejectTable(), RejectFields(), jbody, BodyConverter(ctx));
  }

  /** Any other status: parsing never raises, and the body holds `errorCode` and
      `errorMessage` exactly when each is set in the JSON, copied as they came. */
  lemma {:induction false} ErrorBody<D, E>(ep: Endpoint, status: int, jbody: map<string, Json>, ctx: Catalog<D, E>)
    requires status != 200 && !(status == 400 && ep == Configure)
    ensures ParseBody(ep, status, jbody, ctx).Success?
    ensures var b := ParseBody(ep, status, jbody, ctx).value;
      && (forall k :: k in b ==> k == "errorCode" || k == "errorMessage")
      && ("errorCode" in b <==> IsSet(jbody, "errorCode"))
      && ("errorMessage" in b <==> IsSet(jbody, "errorMessage"))
      && (forall k :: k in b ==> b[k] == Plain(jbody[k]))
  {
    TableForStatus(ep, status);
    ErrorTabulated();
    ApplyTabulated(ErrorTable(), ErrorFields(), jbody, BodyConverter(ctx));
  }

  /** In a 200 body, a key the table decodes with one of this module's entities
      holds the entity that entity's `from_dict` builds from the JSON object. */
  lemma {:induction false} OwnEntity<D, E>(ep: Endpoint, jbody: map<string, Json>, ctx: Catalog<D, E>, k: string)
    requires ParseBody(ep, 200, jbody, ctx).Success?
    requires k in SuccessFields(ep) && SuccessFields(ep)[k].Own? && IsSet(jbody, k)
    ensures k in ParseBody(ep, 200, jbody, ctx).value
    ensures var v := ParseBody(ep, 200, jbody, ctx).value[k];
      && v.Record? && jbody[k].JObj?
      && FromDict(SuccessFields(ep)[k].kind, jbody[k].fields, ctx) == Success(v.entity)
  {
    SuccessBody(ep, jbody, ctx);
  }

  /** In a 200 body of `list`, `accounts` holds one account-properties entity per
      element of the JSON list, in order. */
  lemma {:induction false} ListedAccounts<D, E>(jbody: map<string, Json>, ctx: Catalog<D, E>)
    requires ParseBody(List, 200, jbody, ctx).Success?
    requires IsSet(jbody, "accounts")
    ensures "accounts" in ParseBody(List, 200, jbody, ctx).value
    ensures var v := ParseBody(List, 200, jbody, ctx).value["accounts"];
      && v.Records? && jbody["accounts"].JArr? && |v.entities| == |jbody["accounts"].items|
      && forall i :: 0 <= i < |v.entities| ==>
           FromJson(AccountProperties, jbody["accounts"].items[i], ctx) == Success(v.entities[i])
  {
    SuccessBody(List, jbody, ctx);
    var value := jbody["accounts"];
    var decode := x => FromJson(AccountProperties, x, ctx);
    if value.JArr? {
      MapEachSpec(value.items, decode);
    }
  }
}
