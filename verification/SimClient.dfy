/** The in-memory execution client behind backtests: a ledger of placed and filled orders. */
module SimClient {
  import opened Types

  class SimExecutionClient {
    var nextId: nat
    var placed: map<OrderId, (OrderIntent, nat)>
    var fills: seq<OrderEvent>

    constructor ()
      ensures nextId == 1 && placed == map[] && fills == []
    {
      nextId, placed, fills := 1, map[], [];
    }

    method RegisterIntent(intent: OrderIntent) returns (event: OrderEvent)
      modifies this
      ensures placed == old(placed)[intent.clientOrderId := (intent, old(nextId))]
      ensures nextId == old(nextId) + 1 && fills == old(fills)
      ensures event == OrderEvent(intent.clientOrderId, old(nextId), PENDING, 0, None, intent.timestamp)
    {
      var brokerId := nextId;
      nextId := nextId + 1;
      placed := placed[intent.clientOrderId := (intent, brokerId)];
      event := OrderEvent(intent.clientOrderId, brokerId, PENDING, 0, None, intent.timestamp);
    }

    /** Fills a placed order whole at the given price; the source raises for any other. */
    method ExecuteFill(intent: OrderIntent, fillPrice: real, ts: Timestamp) returns (event: OrderEvent)
      requires intent.clientOrderId in placed
      modifies this`fills
      ensures event == OrderEvent(intent.clientOrderId, placed[intent.clientOrderId].1, FILLED, intent.quantity,
              Some(fillPrice), ts)
      ensures fills == old(fills) + [event]
    {
      var (_, brokerId) := placed[intent.clientOrderId];
      event := OrderEvent(intent.clientOrderId, brokerId, FILLED, intent.quantity, Some(fillPrice), ts);
      fills := fills + [event];
    }
  }
}
