// Records shared by the auto-trade contract's parts: its error codes and the
// signal it trades on.

module TradeTypes {
  import opened Base

  /** The error codes the auto-trade contract returns. The two risk-limit codes
      are used by the risk checks but missing from the error enum as shown;
      `DivisionByZero` stands for the panic of an i128 division by zero. */
  datatype AutoTradeError =
    | InvalidAmount
    | Unauthorized
    | SignalNotFound
    | SignalExpired
    | InsufficientBalance
    | InsufficientLiquidity
    | DailyTradeLimitExceeded
    | PositionLimitExceeded
    | DivisionByZero

  /** The signal record the contract keeps, under `Signal(id)`. */
  datatype TradeSignal = TradeSignal(signalId: nat, price: int, expiry: int, baseAsset: nat)
}
