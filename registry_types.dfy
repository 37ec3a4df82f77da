// The signal registry's shared records and error codes. A `Signal` carries the
// fields the registry entry points store, including the categorisation and
// collaboration fields they add to the basic record.

module RegistryTypes {
  import opened Base

  datatype AdminError =
    | Unauthorized
    | AlreadyInitialized
    | NotInitialized
    | InvalidParameter
    | TradingPaused
    | PauseExpired
    | InvalidFeeRate
    | InvalidRiskParameter
    | InsufficientSignatures
    | DuplicateSigner
    | InvalidAssetPair
    | CannotFollowSelf

  datatype FeeError = TradeTooSmall | FeeRoundedToZero | ArithmeticOverflow | InvalidAmount | InvalidProviderAddress

  datatype PerformanceError = SignalNotFound | InvalidPrice | DivisionByZero | InvalidVolume | SignalExpired | NoExecutions

  datatype SignalStatus = Pending | Active | Executed | Expired | Successful | Failed

  datatype SignalAction = Buy | Sell

  datatype SignalCategory = SwingTrade | DayTrade | LongTerm | Scalping | Breakout | Reversal | Momentum

  datatype RiskLevel = Low | Medium | High

  type Text = seq<Byte>

  datatype Signal = Signal(
    id: nat,
    provider: Address,
    assetPair: Text,
    action: SignalAction,
    price: int,
    rationale: Text,
    timestamp: int,
    expiry: int,
    status: SignalStatus,
    executions: nat,
    successfulExecutions: nat,
    totalVolume: int,
    totalRoi: int,
    category: SignalCategory,
    tags: seq<Text>,
    riskLevel: RiskLevel,
    isCollaborative: bool)

  /** `ProviderPerformance`; its `Default` is all zeros. */
  datatype ProviderPerformance = ProviderPerformance(
    totalSignals: nat,
    successfulSignals: nat,
    failedSignals: nat,
    totalCopies: nat,
    successRate: nat,
    avgReturn: int,
    totalVolume: int)

  const DefaultPerformance: ProviderPerformance := ProviderPerformance(0, 0, 0, 0, 0, 0, 0)

  datatype TradeExecution = TradeExecution(
    signalId: nat,
    executor: Address,
    entryPrice: int,
    exitPrice: int,
    volume: int,
    roi: int,
    timestamp: int)
}
