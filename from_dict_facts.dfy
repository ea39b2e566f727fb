/** What each `from_dict` promises, stated against reference tables written
    independently of the rewrite schedule: which keys hold decimals, which hold
    lists of sibling entities, and what every other key becomes. */
module FromDictFacts {
  import opened Json
  import opened Rules
  import opened Context
  import opened AccountEntities

  /** The keys whose value goes through `ctx.convert_decimal_number`. */
  function DecimalKeys(kind: Kind): set<string>
  {
    match kind
    case Account => {"marginRate", "marginCloseoutPercent", "marginCallPercent"}
    case AccountSummary => {"marginRate", "marginCloseoutPercent", "marginCallPercent"}
    case AccountState => {"marginCloseoutPercent", "marginCallPercent"}
    case AccountProperties => {}
    case AccountChanges => {}
  }

  /** The keys holding a list of sibling entities, with the entity type. */
  function ListKeys(kind: Kind): map<string, ChildType>
  {
    match kind
    case Account => map["trades" := TradeSummary, "positions" := Position, "orders" := Order]
    case AccountState =>
      map["orders" := DynamicOrderState, "trades" := CalculatedTradeState,
          "positions" := CalculatedPositionState]
    case AccountProperties => map[]
    case AccountSummary => map[]
    case AccountChanges =>
      map["ordersCreated" := Order, "ordersCancelled" := Order, "ordersFilled" := Order,
          "ordersTriggered" := Order, "tradesOpened" := Trade, "tradesReduced" := Trade,
          "tradesClosed" := Trade, "positions" := Position, "transactions" := Transaction]
  }

  /** A key some statement of `from_dict` may rewrite. */
  predicate Special(kind: Kind, k: string)
  {
    k in DecimalKeys(kind) || k in ListKeys(kind)
  }

  /** The rewrite schedule agrees with the reference tables: a statement
      converts to a decimal exactly when its key is a decimal key, and a
      statement decoding a list decodes the entity type the list table gives. */
  lemma StatementsAgree(kind: Kind)
    ensures forall i :: 0 <= i < |Schema(kind)| ==>
      (Schema(kind)[i].conv == ToDecimal <==> Schema(kind)[i].key in DecimalKeys(kind))
    ensures forall i :: 0 <= i < |Schema(kind)| && Schema(kind)[i].conv.ToChildren? ==>
      Schema(kind)[i].key in ListKeys(kind) && ListKeys(kind)[Schema(kind)[i].key] == Schema(kind)[i].conv.child
  {
    match kind {
      case Account =>
      case AccountState =>
      case AccountProperties =>
      case AccountSummary =>
      case AccountChanges =>
    }
  }

  /** Every key of the reference tables has its statement in the schedule. */
  lemma TablesScheduled(kind: Kind)
    ensures forall k :: k in DecimalKeys(kind) ==> Rule(k, ToDecimal) in Schema(kind)
    ensures forall k :: k in ListKeys(kind) ==> Rule(k, ToChildren(ListKeys(kind)[k])) in Schema(kind)
  {
    match kind {
      case Account =>
      case AccountState =>
      case AccountProperties =>
      case AccountSummary =>
      case AccountChanges =>
    }
  }

  /** A special key: some statement rewrites it, with the conversion the
      reference tables give. */
  lemma ScheduledFor(kind: Kind, k: string)
    ensures k in DecimalKeys(kind) ==>
      exists i :: 0 <= i < |Schema(kind)| && Schema(kind)[i] == Rule(k, ToDecimal)
    ensures k in ListKeys(kind) ==>
      exists i :: 0 <= i < |Schema(kind)| && Schema(kind)[i] == Rule(k, ToChildren(ListKeys(kind)[k]))
  {
    TablesScheduled(kind);
  }

  /** `from_dict` keeps exactly the keys it was given, and every key that is not
      special, or is absent or `None`, reaches the constructor untouched. */
  lemma {:induction false} RehydratePassThrough<D, E>(kind: Kind, data: map<string, Json>, ctx: Catalog<D, E>)
    requires Rehydrate(kind, data, ctx).Success?
    ensures Rehydrate(kind, data, ctx).value.Keys == data.Keys
    ensures forall k :: k in data && (!Special(kind, k) || !IsSet(data, k)) ==>
      Rehydrate(kind, data, ctx).value[k] == Plain(data[k])
  {
    RehydrateSpec(kind, data, ctx);
    forall k | k in Touched(Schema(kind), 0, data) ensures IsSet(data, k) && Special(kind, k) {
      TouchedSpecial(kind, data, k);
    }
  }

  /** Only special keys that are set are rewritten. */
  lemma TouchedSpecial(kind: Kind, data: map<string, Json>, k: string)
    requires k in Touched(Schema(kind), 0, data)
    ensures IsSet(data, k) && Special(kind, k)
  {
    var rules := Schema(kind);
    var i :| 0 <= i < |rules| && IsSet(data, rules[i].key) && rules[i].key == k;
    StatementsAgree(kind);
  }

  /** Decimal conversion applies exactly to the decimal keys that are set, and
      such a key holds what `convert_decimal_number` returned for it. */
  lemma {:induction false} RehydrateDecimals<D, E>(kind: Kind, data: map<string, Json>, ctx: Catalog<D, E>)
    requires Rehydrate(kind, data, ctx).Success?
    ensures Rehydrate(kind, data, ctx).value.Keys == data.Keys
    ensures forall k :: k in data ==>
      (Rehydrate(kind, data, ctx).value[k].Dec? <==> k in DecimalKeys(kind) && IsSet(data, k))
    ensures forall k :: k in DecimalKeys(kind) && IsSet(data, k) ==>
      ctx.convertDecimal(data[k]) == Success(Rehydrate(kind, data, ctx).value[k].dec)
  {
    RehydrateSpec(kind, data, ctx);
    RehydratePassThrough(kind, data, ctx);
    StatementsAgree(kind);
    var rules := Schema(kind);
    var out := Rehydrate(kind, data, ctx).value;
    forall k | k in DecimalKeys(kind) && IsSet(data, k)
      ensures out[k].Dec? && ctx.convertDecimal(data[k]) == Success(out[k].dec)
    {
      ScheduledFor(kind, k);
      var i :| 0 <= i < |rules| && rules[i] == Rule(k, ToDecimal);
      assert ConvertField(ToDecimal, data[k], ctx) == Success(out[k]);
    }
    forall k | k in data && !(k in DecimalKeys(kind) && IsSet(data, k)) ensures !out[k].Dec? {
      if k in Touched(rules, 0, data) {
        var i :| 0 <= i < |rules| && IsSet(data, rules[i].key) && rules[i].key == k;
        assert ConvertField(rules[i].conv, data[k], ctx) == Success(out[k]);
      }
    }
  }

  /** A list key that is set holds a list of sibling entities of the tabled type,
      element `i` decoded from element `i` of the JSON list. */
  lemma {:induction false} RehydrateLists<D, E>(kind: Kind, data: map<string, Json>, ctx: Catalog<D, E>)
    requires Rehydrate(kind, data, ctx).Success?
    ensures Rehydrate(kind, data, ctx).value.Keys == data.Keys
    ensures forall k :: k in ListKeys(kind) && IsSet(data, k) ==>
      Rehydrate(kind, data, ctx).value[k].Children? &&
      DecodeList(ctx, ListKeys(kind)[k], data[k]) == Success(Rehydrate(kind, data, ctx).value[k].children)
    ensures forall k :: k in ListKeys(kind) && IsSet(data, k) ==>
      var out := Rehydrate(kind, data, ctx).value[k];
      && data[k].JArr? && out.Children? && |out.children| == |data[k].items|
      && forall i :: 0 <= i < |data[k].items| ==>
           ctx.decode(ListKeys(kind)[k], data[k].items[i]) == Success(out.children[i])
  {
    RehydrateSpec(kind, data, ctx);
    var rules := Schema(kind);
    var out := Rehydrate(kind, data, ctx).value;
    forall k | k in ListKeys(kind) && IsSet(data, k)
      ensures out[k].Children? && DecodeList(ctx, ListKeys(kind)[k], data[k]) == Success(out[k].children)
      ensures data[k].JArr? && |out[k].children| == |data[k].items|
      ensures forall i :: 0 <= i < |data[k].items| ==>
        ctx.decode(ListKeys(kind)[k], data[k].items[i]) == Success(out[k].children[i])
    {
      var child := ListKeys(kind)[k];
      ScheduledFor(kind, k);
      var i :| 0 <= i < |rules| && rules[i] == Rule(k, ToChildren(child));
      assert ConvertField(ToChildren(child), data[k], ctx) == Success(out[k]);
      DecodeListSpec(ctx, child, data[k]);
    }
  }

  /** `from_dict` raises exactly when a set decimal key fails to convert or a set
      list key fails to decode. */
  lemma {:induction false} RehydrateRaises<D, E>(kind: Kind, data: map<string, Json>, ctx: Catalog<D, E>)
    ensures Rehydrate(kind, data, ctx).Failure? <==>
      || (exists k :: k in DecimalKeys(kind) && IsSet(data, k) && ctx.convertDecimal(data[k]).Failure?)
      || (exists k :: k in ListKeys(kind) && IsSet(data, k) && DecodeList(ctx, ListKeys(kind)[k], data[k]).Failure?)
  {
    RehydrateSpec(kind, data, ctx);
    StatementsAgree(kind);
    var rules := Schema(kind);
    var convert := FieldConverter(ctx);
    if Rehydrate(kind, data, ctx).Failure? {
      var i :| Raises(rules, data, convert, i);
      var k := rules[i].key;
      match rules[i].conv {
        case ToDecimal =>
          assert ctx.convertDecimal(data[k]).Failure?;
        case ToChildren(child) =>
          assert DecodeList(ctx, ListKeys(kind)[k], data[k]).Failure?;
      }
    } else {
      forall k | k in DecimalKeys(kind) && IsSet(data, k) ensures ctx.convertDecimal(data[k]).Success? {
        ScheduledFor(kind, k);
        var i :| 0 <= i < |rules| && rules[i] == Rule(k, ToDecimal);
        assert !Raises(rules, data, convert, i);
      }
      forall k | k in ListKeys(kind) && IsSet(data, k)
        ensures DecodeList(ctx, ListKeys(kind)[k], data[k]).Success?
      {
        ScheduledFor(kind, k);
        var i :| 0 <= i < |rules| && rules[i] == Rule(k, ToChildren(ListKeys(kind)[k]));
        assert !Raises(rules, data, convert, i);
      }
    }
  }

  /** `AccountProperties.from_dict` rewrites nothing: the constructor receives a
      plain copy of the argument. */
  lemma PropertiesUnchanged<D, E>(data: map<string, Json>, ctx: Catalog<D, E>)
    ensures Rehydrate(Kind.AccountProperties, data, ctx) == Success(ShallowCopy(data))
    ensures FromDict(Kind.AccountProperties, data, ctx) ==
      Success(Construct(Kind.AccountProperties, ShallowCopy(data)))
  {
  }

  /** The entity `from_dict` returns has exactly the declared fields; a field
      absent or `None` in the input is `None`, and a declared field that is not
      special keeps the input's value. */
  lemma {:induction false} FromDictFields<D, E>(kind: Kind, data: map<string, Json>, ctx: Catalog<D, E>)
    requires Rehydrate(kind, data, ctx).Success?
    ensures FromDict(kind, data, ctx).Success?
    ensures FromDict(kind, data, ctx).value.kind == kind
    ensures FromDict(kind, data, ctx).value.attrs.Keys == FieldSet(kind)
    ensures forall f :: f in FieldSet(kind) && !IsSet(data, f) ==>
      FromDict(kind, data, ctx).value.attrs[f] == Plain(JNull)
    ensures forall f :: f in FieldSet(kind) && IsSet(data, f) && !Special(kind, f) ==>
      FromDict(kind, data, ctx).value.attrs[f] == Plain(data[f])
  {
    var kwargs := Rehydrate(kind, data, ctx).value;
    FromDictConstructs(kind, data, ctx, kwargs);
    ConstructSpec(kind, kwargs);
    RehydratePassThrough(kind, data, ctx);
  }

  /** In the entity `from_dict` returns, a decimal field that was set holds the
      converted decimal. */
  lemma {:induction false} FromDictDecimals<D, E>(kind: Kind, data: map<string, Json>, ctx: Catalog<D, E>)
    requires Rehydrate(kind, data, ctx).Success?
    ensures FromDict(kind, data, ctx).Success?
    ensures forall f :: f in DecimalKeys(kind) && IsSet(data, f) ==>
      f in FromDict(kind, data, ctx).value.attrs && FromDict(kind, data, ctx).value.attrs[f].Dec? &&
      ctx.convertDecimal(data[f]) == Success(FromDict(kind, data, ctx).value.attrs[f].dec)
  {
    var kwargs := Rehydrate(kind, data, ctx).value;
    FromDictConstructs(kind, data, ctx, kwargs);
    TablesDeclared(kind);
    RehydrateDecimals(kind, data, ctx);
    ConstructSpec(kind, kwargs);
  }

  /** In the entity `from_dict` returns, a list field that was set holds the
      decoded list. */
  lemma {:induction false} FromDictLists<D, E>(kind: Kind, data: map<string, Json>, ctx: Catalog<D, E>)
    requires Rehydrate(kind, data, ctx).Success?
    ensures FromDict(kind, data, ctx).Success?
    ensures forall f :: f in ListKeys(kind) && IsSet(data, f) ==>
      f in FromDict(kind, data, ctx).value.attrs && FromDict(kind, data, ctx).value.attrs[f].Children? &&
      DecodeList(ctx, ListKeys(kind)[f], data[f]) == Success(FromDict(kind, data, ctx).value.attrs[f].children)
  {
    var kwargs := Rehydrate(kind, data, ctx).value;
    FromDictConstructs(kind, data, ctx, kwargs);
    TablesDeclared(kind);
    RehydrateLists(kind, data, ctx);
    ConstructSpec(kind, kwargs);
  }

  /** Every special key is a declared field of its entity. */
  lemma TablesDeclared(kind: Kind)
    ensures DecimalKeys(kind) <= FieldSet(kind)
    ensures ListKeys(kind).Keys <= FieldSet(kind)
  {
    match kind {
      case Account =>
      case AccountState =>
      case AccountProperties =>
      case AccountSummary =>
      case AccountChanges =>
    }
  }
}
