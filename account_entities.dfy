/** The five account entities: their declared fields, the keys their `from_dict`
    rewrites before construction, and the constructor that reads declared fields
    only. */
module AccountEntities {
  import opened Json
  import opened Rules
  import opened Context

  datatype Kind = Account | AccountState | AccountProperties | AccountSummary | AccountChanges

  /** A value held in a rehydrated dict, an entity attribute or a parsed body.
      `Plain(JNull)` is Python's `None`. */
  datatype Value<D, E> =
    | Plain(json: Json)                    // copied as it came
    | Dec(dec: D)                          // result of ctx.convert_decimal_number
    | Child(child: E)                      // a sibling entity
    | Children(children: seq<E>)           // a list of sibling entities
    | Record(entity: Entity<D, E>)         // an entity of this module
    | Records(entities: seq<Entity<D, E>>) // a list of entities of this module

  /** A constructed entity: one attribute per declared field. */
  datatype Entity<D, E> = Entity(kind: Kind, attrs: map<string, Value<D, E>>)

  /** The fields each `__init__` reads through `kwargs.get`, in declaration order. */
  function Fields(kind: Kind): seq<string>
  {
    match kind
    case Account =>
      ["id", "alias", "currency", "balance", "createdByUserID", "createdTime", "pl",
       "resettabledPL", "resettabledPLTime", "marginRate", "marginCallEnterTime",
       "marginCallExtensionCount", "lastMarginCallExtensionTime", "openTradeCount",
       "openPositionCount", "pendingOrderCount", "hedgingEnabled", "unrealizedPL", "NAV",
       "marginUsed", "marginAvailable", "positionValue", "marginCloseoutUnrealizedPL",
       "marginCloseoutNAV", "marginCloseoutMarginUsed", "marginCloseoutPercent",
       "withdrawalLimit", "marginCallMarginUsed", "marginCallPercent", "lastTransactionID",
       "trades", "positions", "orders"]
    case AccountState =>
      ["unrealizedPL", "NAV", "marginUsed", "marginAvailable", "positionValue",
       "marginCloseoutUnrealizedPL", "marginCloseoutNAV", "marginCloseoutMarginUsed",
       "marginCloseoutPercent", "withdrawalLimit", "marginCallMarginUsed",
       "marginCallPercent", "orders", "trades", "positions"]
    case AccountProperties =>
      ["id", "mt4AccountID", "tags"]
    case AccountSummary =>
      ["id", "alias", "currency", "balance", "createdByUserID", "createdTime", "pl",
       "resettabledPL", "resettabledPLTime", "marginRate", "marginCallEnterTime",
       "marginCallExtensionCount", "lastMarginCallExtensionTime", "openTradeCount",
       "openPositionCount", "pendingOrderCount", "hedgingEnabled", "unrealizedPL", "NAV",
       "marginUsed", "marginAvailable", "positionValue", "marginCloseoutUnrealizedPL",
       "marginCloseoutNAV", "marginCloseoutMarginUsed", "marginCloseoutPercent",
       "withdrawalLimit", "marginCallMarginUsed", "marginCallPercent", "lastTransactionID"]
    case AccountChanges =>
      ["ordersCreated", "ordersCancelled", "ordersFilled", "ordersTriggered",
       "tradesOpened", "tradesReduced", "tradesClosed", "positions", "transactions"]
  }

  function FieldSet(kind: Kind): set<string>
  {
    set f | f in Fields(kind)
  }

  /** `Entity(**kwargs)` as the constructor means it: every declared field is read
      with `kwargs.get`, every other key is ignored. */
  function Construct<D, E>(kind: Kind, kwargs: map<string, Value<D, E>>): Entity<D, E>
  {
    Entity(kind, map f | f in FieldSet(kind) :: if f in kwargs then kwargs[f] else Plain(JNull))
  }

  /** The entity has exactly the declared fields; a declared field takes the value
      passed for it, or `None` when none was passed. */
  lemma ConstructSpec<D, E>(kind: Kind, kwargs: map<string, Value<D, E>>)
    ensures var e := Construct(kind, kwargs);
      && e.kind == kind && e.attrs.Keys == FieldSet(kind)
      && (forall f :: f in FieldSet(kind) && f in kwargs ==> e.attrs[f] == kwargs[f])
      && (forall f :: f in FieldSet(kind) && f !in kwargs ==> e.attrs[f] == Plain(JNull))
  {
  }

  /** Keys a constructor does not declare make no difference to the entity. */
  lemma ConstructIgnoresUndeclared<D, E>(kind: Kind, a: map<string, Value<D, E>>, b: map<string, Value<D, E>>)
    requires forall f :: f in FieldSet(kind) ==> (f in a <==> f in b)
    requires forall f :: f in FieldSet(kind) && f in a ==> a[f] == b[f]
    ensures Construct(kind, a) == Construct(kind, b)
  {
    ConstructSpec(kind, a);
    ConstructSpec(kind, b);
    assert Construct(kind, a).attrs == Construct(kind, b).attrs;
  }

  /** `Entity(**kwargs)` as Python runs it: `__init__(self, **kwargs)` already binds
      `self`, so a key named "self" raises TypeError instead of being ignored. */
  function ConstructAsWritten<D, E>(kind: Kind, kwargs: map<string, Value<D, E>>): Result<Entity<D, E>>
  {
    if "self" in kwargs then Failure(DuplicateSelf) else Success(Construct(kind, kwargs))
  }

  /** How `from_dict` rewrites a key before construction. */
  datatype FieldConversion =
    | ToDecimal                  // ctx.convert_decimal_number(value)
    | ToChildren(child: ChildType) // [ctx.<module>.<child>.from_dict(d, ctx) for d in value]

  /** The guarded rewrites of each `from_dict`, in source order. */
  function Schema(kind: Kind): seq<Rule<FieldConversion>>
  {
    match kind
    case Account =>
      [Rule("marginRate", ToDecimal), Rule("marginCloseoutPercent", ToDecimal),
       Rule("marginCallPercent", ToDecimal), Rule("trades", ToChildren(TradeSummary)),
       Rule("positions", ToChildren(Position)), Rule("orders", ToChildren(Order))]
    case AccountState =>
      [Rule("marginCloseoutPercent", ToDecimal), Rule("marginCallPercent", ToDecimal),
       Rule("orders", ToChildren(DynamicOrderState)),
       Rule("trades", ToChildren(CalculatedTradeState)),
       Rule("positions", ToChildren(CalculatedPositionState))]
    case AccountProperties => []
    case AccountSummary =>
      [Rule("marginRate", ToDecimal), Rule("marginCloseoutPercent", ToDecimal),
       Rule("marginCallPercent", ToDecimal)]
    case AccountChanges =>
      [Rule("ordersCreated", ToChildren(Order)), Rule("ordersCancelled", ToChildren(Order)),
       Rule("ordersFilled", ToChildren(Order)), Rule("ordersTriggered", ToChildren(Order)),
       Rule("tradesOpened", ToChildren(Trade)), Rule("tradesReduced", ToChildren(Trade)),
       Rule("tradesClosed", ToChildren(Trade)), Rule("positions", ToChildren(Position)),
       Rule("transactions", ToChildren(Transaction))]
  }

  lemma SchemaDistinct(kind: Kind)
    ensures DistinctKeys(Schema(kind))
  {
  }

  function ConvertField<D, E>(c: FieldConversion, value: Json, ctx: Catalog<D, E>): Result<Value<D, E>>
  {
    match c
    case ToDecimal =>
      var d :- ctx.convertDecimal(value);
      Success(Dec(d))
    case ToChildren(child) =>
      var items :- DecodeList(ctx, child, value);
      Success(Children(items))
  }

  function FieldConverter<D, E>(ctx: Catalog<D, E>): (FieldConversion, Json) -> Result<Value<D, E>>
  {
    (c, value) => ConvertField(c, value, ctx)
  }

  /** `data.copy()`: the same keys holding the same values. */
  function ShallowCopy<D, E>(data: map<string, Json>): (copy: map<string, Value<D, E>>)
    ensures copy.Keys == data.Keys
    ensures forall k :: k in data ==> copy[k] == Plain(data[k])
  {
    map k | k in data :: Plain(data[k])
  }

  /** The dict `from_dict` passes to the constructor. */
  function Rehydrate<D, E>(kind: Kind, data: map<string, Json>, ctx: Catalog<D, E>): Result<map<string, Value<D, E>>>
  {
    Apply(Schema(kind), data, ShallowCopy(data), FieldConverter(ctx))
  }

  /** `from_dict` keeps exactly the input's keys; a key that is not special, or is
      absent or `None`, passes through unchanged; a special key that is set holds its
      conversion; decoding raises exactly when one of those conversions raises. */
  lemma RehydrateSpec<D, E>(kind: Kind, data: map<string, Json>, ctx: Catalog<D, E>)
    ensures var r := Rehydrate(kind, data, ctx);
      && (r.Success? ==> r.value.Keys == data.Keys)
      && (r.Success? ==>
            forall k :: k in data && k !in Touched(Schema(kind), 0, data) ==> r.value[k] == Plain(data[k]))
      && (r.Success? ==>
            forall i :: 0 <= i < |Schema(kind)| && IsSet(data, Schema(kind)[i].key) ==>
              ConvertField(Schema(kind)[i].conv, data[Schema(kind)[i].key], ctx) == Success(r.value[Schema(kind)[i].key]))
      && (r.Failure? <==> exists i :: Raises(Schema(kind), data, FieldConverter(ctx), i))
  {
    SchemaDistinct(kind);
    ApplySpec(Schema(kind), data, ShallowCopy(data), FieldConverter(ctx));
    var rules := Schema(kind);
    forall k | k in Touched(rules, 0, data) ensures k in data {
      var i :| 0 <= i < |rules| && IsSet(data, rules[i].key) && rules[i].key == k;
    }
  }

  /** `<Kind>.from_dict(data, ctx)` on a JSON object. */
  function FromDict<D, E>(kind: Kind, data: map<string, Json>, ctx: Catalog<D, E>): Result<Entity<D, E>>
  {
    match Rehydrate(kind, data, ctx)
    case Success(kwargs) => Success(Construct(kind, kwargs))
    case Failure(e) => Failure(e)
  }

  /** `<Kind>.from_dict(value, ctx)` on any JSON value: `data.copy()` and `data.get`
      exist only on an object. */
  function FromJson<D, E>(kind: Kind, value: Json, ctx: Catalog<D, E>): (r: Result<Entity<D, E>>)
    ensures !value.JObj? ==> r == Failure(NotAMapping(value))
    ensures r.Success? ==> r.value.kind == kind && r.value.attrs.Keys == FieldSet(kind)
  {
    match value
    case JObj(data) => FromDict(kind, data, ctx)
    case _ => Failure(NotAMapping(value))
  }

  /** `from_dict` as written: the rewritten copy goes to `Entity(**data)` as
      Python runs it. */
  function FromDictAsWritten<D, E>(kind: Kind, data: map<string, Json>, ctx: Catalog<D, E>): Result<Entity<D, E>>
  {
    match Rehydrate(kind, data, ctx)
    case Success(kwargs) => ConstructAsWritten(kind, kwargs)
    case Failure(e) => Failure(e)
  }

  /** `from_dict` ends with `return Entity(**data)` on the rewritten copy. */
  lemma FromDictConstructs<D, E>(kind: Kind, data: map<string, Json>, ctx: Catalog<D, E>,
                                 kwargs: map<string, Value<D, E>>)
    requires Rehydrate(kind, data, ctx) == Success(kwargs)
    ensures FromDict(kind, data, ctx) == Success(Construct(kind, kwargs))
    ensures FromDictAsWritten(kind, data, ctx) == ConstructAsWritten(kind, kwargs)
  {
  }

  /** The two differ exactly on inputs with a key named "self": there the
      written code raises TypeError where an undeclared key is meant to be
      ignored. */
  lemma {:induction false} SelfKeyRaises<D, E>(kind: Kind, data: map<string, Json>, ctx: Catalog<D, E>)
    requires Rehydrate(kind, data, ctx).Success?
    ensures FromDict(kind, data, ctx).Success?
    ensures "self" in data <==> FromDictAsWritten(kind, data, ctx) == Failure(DuplicateSelf)
    ensures "self" !in data ==> FromDictAsWritten(kind, data, ctx) == FromDict(kind, data, ctx)
  {
    RehydrateSpec(kind, data, ctx);
  }

  /** On every input without a key named "self", as written and as intended
      agree, whether decoding raises or not. */
  lemma {:induction false} AsWrittenAgrees<D, E>(kind: Kind, data: map<string, Json>, ctx: Catalog<D, E>)
    ensures "self" !in data ==> FromDictAsWritten(kind, data, ctx) == FromDict(kind, data, ctx)
    ensures Rehydrate(kind, data, ctx).Failure? ==> FromDictAsWritten(kind, data, ctx) == FromDict(kind, data, ctx)
  {
    RehydrateSpec(kind, data, ctx);
  }

  /** A concrete input: an account-properties object carrying a "self" link. */
  lemma SelfKeyExample<D, E>(ctx: Catalog<D, E>)
    ensures var data := map["id" := JStr("101-004-1234567-001"), "self" := JStr("/v3/accounts/101-004-1234567-001")];
      && FromDictAsWritten(Kind.AccountProperties, data, ctx) == Failure(DuplicateSelf)
      && FromDict(Kind.AccountProperties, data, ctx).Success?
      && FromDict(Kind.AccountProperties, data, ctx).value.attrs["id"] == Plain(JStr("101-004-1234567-001"))
  {
    var data := map["id" := JStr("101-004-1234567-001"), "self" := JStr("/v3/accounts/101-004-1234567-001")];
    var kwargs := ShallowCopy(data);
    assert Rehydrate(Kind.AccountProperties, data, ctx) == Success(kwargs);
    ConstructSpec(Kind.AccountProperties, kwargs);
    assert "id" in FieldSet(Kind.AccountProperties);
  }
}
