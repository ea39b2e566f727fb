/** The five `from_dict` static methods, statement by statement: `data.copy()`,
    then one guarded rewrite per special key in source order, then
    `Entity(**data)` as Python runs it. Each is proved to compute
    `FromDictAsWritten`, and to agree with `FromDict`, whose properties are the
    lemmas of `AccountEntities`, on every input without a key named "self". */
module AccountFromDict {
  import opened Json
  import opened Rules
  import opened Context
  import opened AccountEntities

  /** Statement `index` of `kind`'s `from_dict`:
      `if data.get(key) is not None: data[key] = convert(data.get(key))` with the
      key and conversion of `Schema(kind)[index]`. Every key is rewritten at most
      once, so the value read from the copy is still the one the caller passed.
      If the conversion raises, so does the whole `from_dict`; otherwise the
      remaining statements start from the new copy. */
  method Rewrite<D, E>(data: map<string, Json>, copy: map<string, Value<D, E>>, ctx: Catalog<D, E>,
                       kind: Kind, index: nat)
    returns (r: Result<map<string, Value<D, E>>>)
    requires index < |Schema(kind)|
    requires Rehydrate(kind, data, ctx) == ApplyFrom(Schema(kind), index, data, copy, FieldConverter(ctx))
    ensures r == ApplyRule(Schema(kind)[index], data, copy, FieldConverter(ctx))
    ensures r.Failure? ==> FromDictAsWritten(kind, data, ctx) == Failure(r.error)
    ensures r.Failure? ==> FromDict(kind, data, ctx) == Failure(r.error)
    ensures r.Success? ==>
      Rehydrate(kind, data, ctx) == ApplyFrom(Schema(kind), index + 1, data, r.value, FieldConverter(ctx))
  {
    var key := Schema(kind)[index].key;
    var conv := Schema(kind)[index].conv;
    if IsSet(data, key) {
      var v :- ConvertField(conv, data[key], ctx);
      r := Success(copy[key := v]);
    } else {
      r := Success(copy);
    }
  }

  /** `Account.from_dict`: three decimals, then trades, positions and orders. */
  method AccountFromDict<D, E>(data: map<string, Json>, ctx: Catalog<D, E>) returns (r: Result<Entity<D, E>>)
    ensures r == FromDictAsWritten(Kind.Account, data, ctx)
    ensures "self" !in data ==> r == FromDict(Kind.Account, data, ctx)
  {
    var copy: map<string, Value<D, E>> := ShallowCopy(data);
    copy :- Rewrite(data, copy, ctx, Kind.Account, 0);  // marginRate
    copy :- Rewrite(data, copy, ctx, Kind.Account, 1);  // marginCloseoutPercent
    copy :- Rewrite(data, copy, ctx, Kind.Account, 2);  // marginCallPercent
    copy :- Rewrite(data, copy, ctx, Kind.Account, 3);  // trades
    copy :- Rewrite(data, copy, ctx, Kind.Account, 4);  // positions
    copy :- Rewrite(data, copy, ctx, Kind.Account, 5);  // orders
    FromDictConstructs(Kind.Account, data, ctx, copy);
    AsWrittenAgrees(Kind.Account, data, ctx);
    r := ConstructAsWritten(Kind.Account, copy);
  }

  /** `AccountState.from_dict`: two decimals, then orders, trades and positions. */
  method AccountStateFromDict<D, E>(data: map<string, Json>, ctx: Catalog<D, E>) returns (r: Result<Entity<D, E>>)
    ensures r == FromDictAsWritten(Kind.AccountState, data, ctx)
    ensures "self" !in data ==> r == FromDict(Kind.AccountState, data, ctx)
  {
    var copy: map<string, Value<D, E>> := ShallowCopy(data);
    copy :- Rewrite(data, copy, ctx, Kind.AccountState, 0);  // marginCloseoutPercent
    copy :- Rewrite(data, copy, ctx, Kind.AccountState, 1);  // marginCallPercent
    copy :- Rewrite(data, copy, ctx, Kind.AccountState, 2);  // orders
    copy :- Rewrite(data, copy, ctx, Kind.AccountState, 3);  // trades
    copy :- Rewrite(data, copy, ctx, Kind.AccountState, 4);  // positions
    FromDictConstructs(Kind.AccountState, data, ctx, copy);
    AsWrittenAgrees(Kind.AccountState, data, ctx);
    r := ConstructAsWritten(Kind.AccountState, copy);
  }

  /** `AccountProperties.from_dict`: no key is rewritten. */
  method AccountPropertiesFromDict<D, E>(data: map<string, Json>, ctx: Catalog<D, E>) returns (r: Result<Entity<D, E>>)
    ensures r == FromDictAsWritten(Kind.AccountProperties, data, ctx)
    ensures "self" !in data ==> r == FromDict(Kind.AccountProperties, data, ctx)
  {
    var copy: map<string, Value<D, E>> := ShallowCopy(data);
    FromDictConstructs(Kind.AccountProperties, data, ctx, copy);
    AsWrittenAgrees(Kind.AccountProperties, data, ctx);
    r := ConstructAsWritten(Kind.AccountProperties, copy);
  }

  /** `AccountSummary.from_dict`: the three decimals. */
  method AccountSummaryFromDict<D, E>(data: map<string, Json>, ctx: Catalog<D, E>) returns (r: Result<Entity<D, E>>)
    ensures r == FromDictAsWritten(Kind.AccountSummary, data, ctx)
    ensures "self" !in data ==> r == FromDict(Kind.AccountSummary, data, ctx)
  {
    var copy: map<string, Value<D, E>> := ShallowCopy(data);
    copy :- Rewrite(data, copy, ctx, Kind.AccountSummary, 0);  // marginRate
    copy :- Rewrite(data, copy, ctx, Kind.AccountSummary, 1);  // marginCloseoutPercent
    copy :- Rewrite(data, copy, ctx, Kind.AccountSummary, 2);  // marginCallPercent
    FromDictConstructs(Kind.AccountSummary, data, ctx, copy);
    AsWrittenAgrees(Kind.AccountSummary, data, ctx);
    r := ConstructAsWritten(Kind.AccountSummary, copy);
  }

  /** `AccountChanges.from_dict`: nine lists of sibling entities. */
  method AccountChangesFromDict<D, E>(data: map<string, Json>, ctx: Catalog<D, E>) returns (r: Result<Entity<D, E>>)
    ensures r == FromDictAsWritten(Kind.AccountChanges, data, ctx)
    ensures "self" !in data ==> r == FromDict(Kind.AccountChanges, data, ctx)
  {
    var copy: map<string, Value<D, E>> := ShallowCopy(data);
    copy :- Rewrite(data, copy, ctx, Kind.AccountChanges, 0);  // ordersCreated
    copy :- Rewrite(data, copy, ctx, Kind.AccountChanges, 1);  // ordersCancelled
    copy :- Rewrite(data, copy, ctx, Kind.AccountChanges, 2);  // ordersFilled
    copy :- Rewrite(data, copy, ctx, Kind.AccountChanges, 3);  // ordersTriggered
    copy :- Rewrite(data, copy, ctx, Kind.AccountChanges, 4);  // tradesOpened
    copy :- Rewrite(data, copy, ctx, Kind.AccountChanges, 5);  // tradesReduced
    copy :- Rewrite(data, copy, ctx, Kind.AccountChanges, 6);  // tradesClosed
    copy :- Rewrite(data, copy, ctx, Kind.AccountChanges, 7);  // positions
    copy :- Rewrite(data, copy, ctx, Kind.AccountChanges, 8);  // transactions
    FromDictConstructs(Kind.AccountChanges, data, ctx, copy);
    AsWrittenAgrees(Kind.AccountChanges, data, ctx);
    r := ConstructAsWritten(Kind.AccountChanges, copy);
  }
}
