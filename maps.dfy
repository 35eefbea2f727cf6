/**
 * Broker string maps (Gateway/Oanda/Maps, Gateway/Tradier/Maps): exact, case-sensitive
 * lookups from a broker's order and deal states to the engine's enums, with `null` for any
 * other string.
 */
module BrokerMaps {
  import opened Wrappers
  import opened Transactions

  /** Oanda OrderTypeMap.Input. */
  function OandaOrderType(orderType: string): (r: Option<OrderKind>)
    ensures r == Some(Market) <==> orderType in {"MARKET", "MARKET_IF_TOUCHED", "FIXED_PRICE"}
    ensures r == Some(Limit) <==> orderType in {"TAKE_PROFIT", "LIMIT"}
    ensures r == Some(Stop) <==> orderType in {"STOP_LOSS", "TRAILING_STOP_LOSS", "GUARANTEED_STOP_LOSS", "STOP"}
    ensures r != Some(StopLimit)
  {
    match orderType
    case "MARKET" => Some(Market)
    case "MARKET_IF_TOUCHED" => Some(Market)
    case "FIXED_PRICE" => Some(Market)
    case "TAKE_PROFIT" => Some(Limit)
    case "LIMIT" => Some(Limit)
    case "STOP_LOSS" => Some(Stop)
    case "TRAILING_STOP_LOSS" => Some(Stop)
    case "GUARANTEED_STOP_LOSS" => Some(Stop)
    case "STOP" => Some(Stop)
    case _ => None
  }

  /** Oanda OrderStatusMap.Input. */
  function OandaOrderStatus(orderStatus: string): (r: Option<OrderStatus>)
    ensures r == Some(Filled) <==> orderStatus == "FILLED"
    ensures r == Some(Placed) <==> orderStatus == "PENDING"
    ensures r == Some(Cancelled) <==> orderStatus == "CANCELLED"
    ensures r == Some(Completed) <==> orderStatus == "TRIGGERED"
    ensures r.None? <==> orderStatus !in {"FILLED", "PENDING", "CANCELLED", "TRIGGERED"}
  {
    match orderStatus
    case "FILLED" => Some(Filled)
    case "PENDING" => Some(Placed)
    case "CANCELLED" => Some(Cancelled)
    case "TRIGGERED" => Some(Completed)
    case _ => None
  }

  /** Oanda DealStatusMap.Input. */
  function OandaDealStatus(orderStatus: string): (r: Option<OrderStatus>)
    ensures r == Some(Filled) <==> orderStatus == "OPEN"
    ensures r == Some(Closed) <==> orderStatus == "CLOSED"
    ensures r.None? <==> orderStatus != "OPEN" && orderStatus != "CLOSED"
  {
    match orderStatus
    case "OPEN" => Some(Filled)
    case "CLOSED" => Some(Closed)
    case _ => None
  }

  /** Tradier DealStatusMap.Input. */
  function TradierDealStatus(orderStatus: string): (r: Option<OrderStatus>)
    ensures r == Some(Filled) <==> orderStatus == "OPEN"
    ensures r == Some(Closed) <==> orderStatus == "CLOSED"
    ensures r.None? <==> orderStatus != "OPEN" && orderStatus != "CLOSED"
  {
    match orderStatus
    case "OPEN" => Some(Filled)
    case "CLOSED" => Some(Closed)
    case _ => None
  }

  /** Lower-case spellings of the broker states are not recognised. */
  lemma CaseSensitive()
    ensures OandaOrderType("market") == None && OandaOrderType("Limit") == None
    ensures OandaOrderStatus("filled") == None && OandaDealStatus("open") == None && TradierDealStatus("Closed") == None
  {
  }

  /** Different accepted order statuses map to different engine statuses. */
  lemma OrderStatusInjective(a: string, b: string)
    requires OandaOrderStatus(a).Some? && OandaOrderStatus(a) == OandaOrderStatus(b)
    ensures a == b
  {
  }

  /** Every recognised order type is a plain market, limit or stop order. */
  lemma OrderTypeRange(orderType: string)
    ensures OandaOrderType(orderType) in {None, Some(Market), Some(Limit), Some(Stop)}
  {
  }

  /** A deal (an open or closed trade) is never reported as placed or cancelled. */
  lemma DealStatusRange(orderStatus: string)
    ensures OandaDealStatus(orderStatus) in {None, Some(Filled), Some(Closed)}
    ensures OandaDealStatus(orderStatus) != Some(Placed) && OandaDealStatus(orderStatus) != Some(Cancelled)
  {
  }

  /** The Tradier and Oanda deal maps agree on every string. */
  lemma DealMapsAgree(orderStatus: string)
    ensures TradierDealStatus(orderStatus) == OandaDealStatus(orderStatus)
  {
  }

  /** A deal reported open is what the order map reports as filled. */
  lemma OpenDealIsFilledOrder()
    ensures OandaDealStatus("OPEN") == OandaOrderStatus("FILLED")
  {
  }
}
