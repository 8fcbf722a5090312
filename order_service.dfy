/** The paper-trading ledger: at most one position per market, opened by a
    BUY and removed by a SELL. A BUY spends a fixed order amount of the quote
    currency; its quantity is cut to four decimals. */
module OrderService {
  import opened Wrappers
  import opened Model

  /** The conversion of a floating-point value to an integer: truncation
      toward zero. */
  function TruncToInt(x: real): (n: int)
    ensures 0.0 <= x ==> 0 <= n && n as real <= x < n as real + 1.0
    ensures x < 0.0 ==> n <= 0 && n as real - 1.0 < x <= n as real
  {
    if x >= 0.0 then x.Floor else -((-x).Floor)
  }

  /** The quantity a BUY at `price` acquires: the order amount divided by the
      price, truncated to four decimals. */
  function BuyQuantity(orderAmount: real, price: real): (q: real)
    requires price != 0.0
    ensures (q * 10000.0).Floor as real == q * 10000.0
    ensures 0.0 <= orderAmount / price ==> 0.0 <= q <= orderAmount / price
  {
    TruncToInt(orderAmount / price * 10000.0) as real / 10000.0
  }

  /** For a non-negative amount and a positive price the quantity is a whole
      number of ten-thousandths, never more than amount / price, and less than
      one ten-thousandth below it. */
  lemma BuyQuantityBounds(orderAmount: real, price: real)
    requires orderAmount >= 0.0 && price > 0.0
    ensures var q := BuyQuantity(orderAmount, price);
            && 0.0 <= q <= orderAmount / price
            && orderAmount / price - q < 0.0001
            && (q * 10000.0).Floor as real == q * 10000.0
  {
    var x := orderAmount / price * 10000.0;
    assert orderAmount / price >= 0.0;
    var n := TruncToInt(x);
    assert n as real <= x < n as real + 1.0;
    assert BuyQuantity(orderAmount, price) * 10000.0 == n as real;
  }

  /** The profit of closing `position` at `price`. */
  function ClosingProfit(position: Position, price: real): real {
    (price - position.entryPrice) * position.quantity
  }

  /** The position a BUY opens. */
  function OpenedPosition(market: string, price: real, orderAmount: real): Position
    requires price != 0.0
  {
    Position(POSITION_BUY, market, BuyQuantity(orderAmount, price), price, 0.0)
  }

  /** A worked illustration of the ledger arithmetic (the general statement
      is `BuyQuantityBounds`): buying 100000 worth at 50000000 opens 0.002,
      and closing at 55000000 earns 10000. */
  lemma LedgerArithmeticExample()
    ensures OpenedPosition("KRW-BTC", 50000000.0, 100000.0).quantity == 0.002
    ensures ClosingProfit(OpenedPosition("KRW-BTC", 50000000.0, 100000.0), 55000000.0) == 10000.0
  {
    assert 100000.0 / 50000000.0 * 10000.0 == 20.0;
    assert TruncToInt(20.0) == 20;
    assert BuyQuantity(100000.0, 50000000.0) == 20.0 / 10000.0;
  }

  /** The ledger after one order. A BUY writes a fresh position over whatever
      the market held; a SELL removes the market's position if there is one;
      any other signal type changes nothing. */
  function AfterOrder(positions: map<string, Position>, market: string, signalType: SignalType,
                      currentPrice: real, orderAmount: real): (r: map<string, Position>)
    requires signalType == BUY ==> currentPrice != 0.0
    ensures forall m :: m != market ==> (m in r <==> m in positions)
    ensures forall m :: m != market && m in r ==> r[m] == positions[m]
    ensures signalType == BUY ==> market in r && r[market] == OpenedPosition(market, currentPrice, orderAmount)
    ensures signalType == SELL ==> market !in r
  {
    if signalType == BUY then
      positions[market := OpenedPosition(market, currentPrice, orderAmount)]
    else if signalType == SELL && market in positions then
      positions - {market}
    else
      positions
  }

  /** A SELL without a position, and any type other than BUY and SELL, leave
      the ledger as it was. */
  lemma AfterOrderNoOp(positions: map<string, Position>, market: string, signalType: SignalType,
                       currentPrice: real, orderAmount: real)
    requires (signalType == SELL && market !in positions) || (signalType != BUY && signalType != SELL)
    ensures AfterOrder(positions, market, signalType, currentPrice, orderAmount) == positions
  {
  }

  /** A second SELL for the same market changes nothing. */
  lemma SellTwiceIsSellOnce(positions: map<string, Position>, market: string, p1: real, p2: real, orderAmount: real)
    ensures var once := AfterOrder(positions, market, SELL, p1, orderAmount);
            AfterOrder(once, market, SELL, p2, orderAmount) == once
  {
  }

  /** Every stored position is an open BUY filed under its own market, with
      no profit booked: the ledger holds at most one open position per
      market. */
  ghost predicate LedgerWellFormed(positions: map<string, Position>) {
    forall m :: m in positions ==>
      positions[m].market == m && positions[m].status == POSITION_BUY && positions[m].profit == 0.0
  }

  lemma AfterOrderKeepsLedgerWellFormed(positions: map<string, Position>, market: string, signalType: SignalType,
                                         currentPrice: real, orderAmount: real)
    requires LedgerWellFormed(positions)
    requires signalType == BUY ==> currentPrice != 0.0
    ensures LedgerWellFormed(AfterOrder(positions, market, signalType, currentPrice, orderAmount))
  {
  }

  class OrderService {
    var positions: map<string, Position>

    constructor ()
      ensures positions == map[]
    {
      positions := map[];
    }

    /** The market's position, if it has one. */
    function GetPosition(market: string): (r: Option<Position>)
      reads this
      ensures r.Some? <==> market in positions
      ensures r.Some? ==> r.value == positions[market]
    {
      if market in positions then Some(positions[market]) else None
    }

    method SetPosition(market: string, position: Position)
      modifies this
      ensures positions == old(positions)[market := position]
    {
      positions := positions[market := position];
    }

    method RemovePosition(market: string)
      modifies this
      ensures positions == old(positions) - {market}
    {
      positions := positions - {market};
    }

    /** Applies one order to the ledger. The profit of a SELL is computed on
        a copy of the position that is then dropped. */
    method PlaceOrder(market: string, signalType: SignalType, currentPrice: real, orderAmount: real)
      requires signalType == BUY ==> currentPrice != 0.0
      modifies this
      ensures positions == AfterOrder(old(positions), market, signalType, currentPrice, orderAmount)
    {
      if signalType == BUY {
        var quantity := TruncToInt(orderAmount / currentPrice * 10000.0) as real / 10000.0;
        var position := Position(POSITION_BUY, market, quantity, currentPrice, 0.0);
        SetPosition(market, position);
      } else if signalType == SELL {
        var position := GetPosition(market);
        if position.None? {
          return;
        }
        var profit := (currentPrice - position.value.entryPrice) * position.value.quantity;
        var closed := position.value.(profit := profit, status := POSITION_NONE);
        RemovePosition(market);
      }
    }
  }
}
