/** The `ctx` every decoder receives: the decimal converter and the `from_dict`
    methods of the sibling modules (trade, position, order, transaction,
    primitives). Their code is not part of this model, so each is an arbitrary
    function that either yields a value or raises. */
module Context {
  import opened Json
  import opened Rules

  /** The sibling entity types this module decodes through `ctx`. */
  datatype ChildType =
    | TradeSummary                      // ctx.trade.TradeSummary
    | Trade                             // ctx.trade.Trade
    | CalculatedTradeState              // ctx.trade.CalculatedTradeState
    | Position                          // ctx.position.Position
    | CalculatedPositionState           // ctx.position.CalculatedPositionState
    | Order                             // ctx.order.Order
    | DynamicOrderState                 // ctx.order.DynamicOrderState
    | Transaction                       // ctx.transaction.Transaction
    | ClientConfigureTransaction        // ctx.transaction.ClientConfigureTransaction
    | ClientConfigureRejectTransaction  // ctx.transaction.ClientConfigureRejectTransaction
    | Instrument                        // ctx.primitives.Instrument

  /** `D` is whatever `convert_decimal_number` yields, `E` whatever a sibling
      `from_dict` yields. */
  datatype Catalog<D, E> = Catalog(
    convertDecimal: Json -> Result<D>,
    decode: (ChildType, Json) -> Result<E>)

  /** `for d in value` over a JSON value: only a list is iterated here. */
  function Iterate<T>(value: Json, decode: Json -> Result<T>): Result<seq<T>>
  {
    match value
    case JArr(xs) => MapEach(xs, decode)
    case _ => Failure(NotIterable(value))
  }

  /** `[ctx.<module>.<child>.from_dict(d, ctx) for d in value]`. */
  function DecodeList<D, E>(ctx: Catalog<D, E>, child: ChildType, value: Json): Result<seq<E>>
  {
    Iterate(value, x => ctx.decode(child, x))
  }

  /** A nested list field keeps length and order: element `i` of the result is the
      child decoder applied to element `i` of the JSON list; a value that is not a
      list cannot be iterated. */
  lemma DecodeListSpec<D, E>(ctx: Catalog<D, E>, child: ChildType, value: Json)
    ensures var r := DecodeList(ctx, child, value);
      && (!value.JArr? ==> r == Failure(NotIterable(value)))
      && (r.Success? ==>
            value.JArr? && |r.value| == |value.items| &&
            forall i :: 0 <= i < |value.items| ==> ctx.decode(child, value.items[i]) == Success(r.value[i]))
      && (value.JArr? ==>
            (r.Failure? <==> exists i :: 0 <= i < |value.items| && ctx.decode(child, value.items[i]).Failure?))
  {
    if value.JArr? {
      MapEachSpec(value.items, x => ctx.decode(child, x));
    }
  }
}
