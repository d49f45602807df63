/** The risk gates, run in one declared order; the first to refuse speaks. */
module Risk {
  import Orders
  import opened Wrappers

  datatype Phase = Discovered | Active | Cancelling | Settling | Settled | Dead

  datatype SpecStatus = Unverified | Verified | SpecFailed

  datatype Gate =
    | TradingEnabled | ExecutionArmed | MarketPhase | WindowTriggered | PriceToBeat | StrategyEnabled
    | DuplicateIntent | TradeQuota | OpposingDirection | PositionLimit | EntryBand | ExchangeMinimum
    | LossLimits | FeedFreshness | RuntimeHealth | SupervisorReady | WalletConnected | OrphanOrders
    | AvailableBalance

  const GATE_ORDER: seq<Gate> := [
    TradingEnabled, ExecutionArmed, MarketPhase, WindowTriggered, PriceToBeat, StrategyEnabled,
    DuplicateIntent, TradeQuota, OpposingDirection, PositionLimit, EntryBand, ExchangeMinimum,
    LossLimits, FeedFreshness, RuntimeHealth, SupervisorReady, WalletConnected, OrphanOrders,
    AvailableBalance]

  datatype Reason =
    | SpecUnverified | Paused | NotArmed | PhaseCancelling | PhaseDead | PhaseNotActive | NotTriggered
    | StrategyDisabled | IntentDuplicated | QuotaExhausted | OpposingBlocked | PositionLimitReached
    | PriceAboveBand | PriceBelowBand | SizeBelowMinimum | LossLimitReached | FeedStale | ClockDrift
    | RuntimeUnhealthy | SupervisorNotReady | WalletDisconnected | OrphansUnreconciled | InsufficientBalance

  /** Everything the gates read, gathered once before the first of them runs. */
  datatype Context = Context(
    tradingEnabled: bool,
    spec: SpecStatus,
    paused: bool,
    armed: bool,
    phase: Phase,
    windowTriggered: bool,
    ptb: Option<real>,
    strategyEnabled: bool,
    intentExists: bool,
    quotaUsed: nat,
    quotaReserved: nat,
    maxTrades: nat,
    direction: Orders.Direction,
    held: set<Orders.Direction>,
    allowOpposing: bool,
    openPositions: nat,
    maxPositions: nat,
    price: real,
    size: real,
    bandMin: real,
    bandMax: real,
    minSize: real,
    dailyLoss: real,
    lossStreak: nat,
    maxDailyLoss: real,
    maxLossStreak: nat,
    feedBlocked: bool,
    driftCritical: bool,
    healthy: bool,
    supervisorReady: bool,
    walletConnected: bool,
    orphans: seq<string>,
    balance: Option<real>)

  /** Why a gate refuses; None where it allows. */
  function Denial(g: Gate, c: Context): Option<Reason> {
    match g
    case TradingEnabled =>
      if c.spec != Verified then Some(SpecUnverified)
      else if c.paused then Some(Paused)
      else if !c.tradingEnabled then Some(SpecUnverified)
      else None
    case ExecutionArmed => if !c.armed then Some(NotArmed) else None
    case MarketPhase =>
      if c.phase == Cancelling then Some(PhaseCancelling)
      else if c.phase == Dead then Some(PhaseDead)
      else if c.phase != Active then Some(PhaseNotActive)
      else None
    case WindowTriggered => if !c.windowTriggered then Some(NotTriggered) else None
    case PriceToBeat => None
    case StrategyEnabled => if !c.strategyEnabled then Some(StrategyDisabled) else None
    case DuplicateIntent => if c.intentExists then Some(IntentDuplicated) else None
    case TradeQuota => if c.quotaUsed + c.quotaReserved >= c.maxTrades then Some(QuotaExhausted) else None
    case OpposingDirection =>
      if !c.allowOpposing && c.direction.Opposite() in c.held then Some(OpposingBlocked) else None
    case PositionLimit => if c.openPositions >= c.maxPositions then Some(PositionLimitReached) else None
    case EntryBand =>
      if c.price > c.bandMax then Some(PriceAboveBand)
      else if c.price < c.bandMin then Some(PriceBelowBand)
      else None
    case ExchangeMinimum => if c.size < c.minSize || c.size <= 0.0 then Some(SizeBelowMinimum) else None
    case LossLimits =>
      if c.maxDailyLoss > 0.0 && c.dailyLoss >= c.maxDailyLoss then Some(LossLimitReached)
      else if c.maxLossStreak > 0 && c.lossStreak >= c.maxLossStreak then Some(LossLimitReached)
      else None
    case FeedFreshness => if c.feedBlocked then Some(FeedStale) else None
    case RuntimeHealth =>
      if c.driftCritical then Some(ClockDrift) else if !c.healthy then Some(RuntimeUnhealthy) else None
    case SupervisorReady => if !c.supervisorReady then Some(SupervisorNotReady) else None
    case WalletConnected => if !c.walletConnected then Some(WalletDisconnected) else None
    case OrphanOrders => if c.orphans != [] then Some(OrphansUnreconciled) else None
    case AvailableBalance =>
      if c.balance.Some? && c.price * c.size > c.balance.value then Some(InsufficientBalance) else None
  }

  datatype Verdict = Allowed | Denied(gate: Gate, reason: Reason)

  /** The verdict as the gates' declared order defines it: the least failing gate, or none. */
  predicate Names(v: Verdict, c: Context) {
    match v
    case Allowed => forall i | 0 <= i < |GATE_ORDER| :: Denial(GATE_ORDER[i], c).None?
    case Denied(g, r) =>
      exists k | 0 <= k < |GATE_ORDER| ::
        && GATE_ORDER[k] == g && Denial(GATE_ORDER[k], c) == Some(r)
        && forall i | 0 <= i < k :: Denial(GATE_ORDER[i], c).None?
  }

  /** The same loop as a function. */
  function FirstDenial(c: Context, k: nat): (v: Verdict)
    requires k <= |GATE_ORDER|
    ensures (forall i | 0 <= i < k :: Denial(GATE_ORDER[i], c).None?) ==> Names(v, c)
    decreases |GATE_ORDER| - k
  {
    if k == |GATE_ORDER| then Allowed
    else match Denial(GATE_ORDER[k], c)
      case Some(r) => Denied(GATE_ORDER[k], r)
      case None => FirstDenial(c, k + 1)
  }

  function Judge(c: Context): (v: Verdict)
    ensures Names(v, c)
  {
    FirstDenial(c, 0)
  }

  lemma DeniedAlike(g: Gate, c: Context, ptb: Option<real>)
    ensures Denial(g, c.(ptb := ptb)) == Denial(g, c)
  {
    var d := c.(ptb := ptb);
    assert d.price == c.price && d.size == c.size && d.price * d.size == c.price * c.size;
    match g
    case AvailableBalance => assert d.balance == c.balance;
    case OpposingDirection => assert d.held == c.held && d.direction == c.direction;
    case OrphanOrders => assert d.orphans == c.orphans;
    case _ =>
  }

  lemma {:induction false} FirstDenialAlike(c: Context, ptb: Option<real>, k: nat)
    requires k <= |GATE_ORDER|
    ensures FirstDenial(c.(ptb := ptb), k) == FirstDenial(c, k)
    decreases |GATE_ORDER| - k
  {
    if k < |GATE_ORDER| {
      DeniedAlike(GATE_ORDER[k], c, ptb);
      FirstDenialAlike(c, ptb, k + 1);
    }
  }

  /** No gate, the one named for it included, decides anything by the price to beat: without one an intent fares the same. */
  lemma PriceToBeatIsIgnored(c: Context, ptb: Option<real>)
    ensures Judge(c.(ptb := ptb)) == Judge(c)
  {
    FirstDenialAlike(c, ptb, 0);
  }

  function Position(g: Gate): (k: nat)
    ensures k < |GATE_ORDER| && GATE_ORDER[k] == g
  {
    match g
    case TradingEnabled => 0
    case ExecutionArmed => 1
    case MarketPhase => 2
    case WindowTriggered => 3
    case PriceToBeat => 4
    case StrategyEnabled => 5
    case DuplicateIntent => 6
    case TradeQuota => 7
    case OpposingDirection => 8
    case PositionLimit => 9
    case EntryBand => 10
    case ExchangeMinimum => 11
    case LossLimits => 12
    case FeedFreshness => 13
    case RuntimeHealth => 14
    case SupervisorReady => 15
    case WalletConnected => 16
    case OrphanOrders => 17
    case AvailableBalance => 18
  }

  /** Only one verdict is the least failing gate's. */
  lemma OneVerdict(v: Verdict, u: Verdict, c: Context)
    requires Names(v, c) && Names(u, c)
    ensures v == u
  {
    if v.Denied? && u.Denied? {
      var k :| 0 <= k < |GATE_ORDER| && GATE_ORDER[k] == v.gate && Denial(GATE_ORDER[k], c) == Some(v.reason)
               && forall i | 0 <= i < k :: Denial(GATE_ORDER[i], c).None?;
      var m :| 0 <= m < |GATE_ORDER| && GATE_ORDER[m] == u.gate && Denial(GATE_ORDER[m], c) == Some(u.reason)
               && forall i | 0 <= i < m :: Denial(GATE_ORDER[i], c).None?;
      assert k == m;
    }
  }

  // ── what the gates decide, told by the fields alone ───────────────────────

  /** The proposal and everything around it is as it must be. */
  ghost predicate Open(c: Context) {
    && c.spec == Verified && !c.paused && c.tradingEnabled
    && c.armed
    && c.phase == Active
    && c.windowTriggered && c.strategyEnabled && !c.intentExists
    && c.quotaUsed + c.quotaReserved < c.maxTrades
    && (c.allowOpposing || c.direction.Opposite() !in c.held)
    && c.openPositions < c.maxPositions
    && c.bandMin <= c.price <= c.bandMax
    && c.size > 0.0 && c.size >= c.minSize
    && (c.maxDailyLoss > 0.0 ==> c.dailyLoss < c.maxDailyLoss)
    && (c.maxLossStreak > 0 ==> c.lossStreak < c.maxLossStreak)
    && !c.feedBlocked && !c.driftCritical && c.healthy && c.supervisorReady && c.walletConnected
    && c.orphans == []
    && (c.balance.Some? ==> c.price * c.size <= c.balance.value)
  }

  /** What is the matter when a reason is given. */
  ghost predicate Grounds(r: Reason, c: Context) {
    match r
    case SpecUnverified => c.spec != Verified || (!c.paused && !c.tradingEnabled)
    case Paused => c.spec == Verified && c.paused
    case NotArmed => !c.armed
    case PhaseCancelling => c.phase == Cancelling
    case PhaseDead => c.phase == Dead
    case PhaseNotActive => c.phase in {Discovered, Settling, Settled}
    case NotTriggered => !c.windowTriggered
    case StrategyDisabled => !c.strategyEnabled
    case IntentDuplicated => c.intentExists
    case QuotaExhausted => c.maxTrades <= c.quotaUsed + c.quotaReserved
    case OpposingBlocked => !c.allowOpposing && c.direction.Opposite() in c.held
    case PositionLimitReached => c.maxPositions <= c.openPositions
    case PriceAboveBand => c.bandMax < c.price
    case PriceBelowBand => c.price < c.bandMin && c.price <= c.bandMax
    case SizeBelowMinimum => c.size <= 0.0 || c.size < c.minSize
    case LossLimitReached =>
      0.0 < c.maxDailyLoss <= c.dailyLoss || 0 < c.maxLossStreak <= c.lossStreak
    case FeedStale => c.feedBlocked
    case ClockDrift => c.driftCritical
    case RuntimeUnhealthy => !c.healthy && !c.driftCritical
    case SupervisorNotReady => !c.supervisorReady
    case WalletDisconnected => !c.walletConnected
    case OrphansUnreconciled => |c.orphans| > 0
    case InsufficientBalance => c.balance.Some? && c.balance.value < c.price * c.size
  }

  /** How early a reason is looked for; those of one gate exclude one another. */
  function Rank(r: Reason): nat {
    match r
    case SpecUnverified => 0
    case Paused => 0
    case NotArmed => 1
    case PhaseCancelling => 2
    case PhaseDead => 2
    case PhaseNotActive => 2
    case NotTriggered => 3
    case StrategyDisabled => 5
    case IntentDuplicated => 6
    case QuotaExhausted => 7
    case OpposingBlocked => 8
    case PositionLimitReached => 9
    case PriceAboveBand => 10
    case PriceBelowBand => 10
    case SizeBelowMinimum => 11
    case LossLimitReached => 12
    case FeedStale => 13
    case ClockDrift => 14
    case RuntimeUnhealthy => 14
    case SupervisorNotReady => 15
    case WalletDisconnected => 16
    case OrphansUnreconciled => 17
    case InsufficientBalance => 18
  }

  /** A gate that refuses has grounds, for a reason of its own. */
  lemma RefusalHasGrounds(g: Gate, r: Reason, c: Context)
    requires Denial(g, c) == Some(r)
    ensures Rank(r) == Position(g) && Grounds(r, c)
  {
  }

  /** Where there are grounds the reason's gate gives it. */
  lemma GroundsAreGiven(r: Reason, c: Context)
    requires Grounds(r, c)
    ensures Rank(r) < |GATE_ORDER| && Denial(GATE_ORDER[Rank(r)], c) == Some(r)
  {
    match r
    case SpecUnverified => case Paused => case NotArmed => case PhaseCancelling => case PhaseDead => case PhaseNotActive =>
    case NotTriggered => case StrategyDisabled => case IntentDuplicated => case QuotaExhausted => case OpposingBlocked =>
    case PositionLimitReached => case PriceAboveBand => case PriceBelowBand => case SizeBelowMinimum => case LossLimitReached =>
    case FeedStale => case ClockDrift => case RuntimeUnhealthy => case SupervisorNotReady => case WalletDisconnected =>
    case OrphansUnreconciled => case InsufficientBalance =>
  }

  lemma PositionInOrder(k: nat)
    requires k < |GATE_ORDER|
    ensures Position(GATE_ORDER[k]) == k
  {
  }

  /** When all is as it must be there are no grounds for any reason. */
  lemma NoGrounds(r: Reason, c: Context)
    requires Open(c)
    ensures !Grounds(r, c)
  {
    match r
    case SpecUnverified => case Paused => case NotArmed => case PhaseCancelling => case PhaseDead => case PhaseNotActive =>
    case NotTriggered => case StrategyDisabled => case IntentDuplicated => case QuotaExhausted => case OpposingBlocked =>
    case PositionLimitReached => case PriceAboveBand => case PriceBelowBand => case SizeBelowMinimum => case LossLimitReached =>
    case FeedStale => case ClockDrift => case RuntimeUnhealthy => case SupervisorNotReady => case WalletDisconnected =>
    case OrphansUnreconciled => case InsufficientBalance =>
  }

  /** And when it is not, there are grounds for one. */
  lemma SomeGrounds(c: Context) returns (r: Reason)
    requires !Open(c)
    ensures Grounds(r, c)
  {
    r := if c.spec != Verified then SpecUnverified
         else if c.paused then Paused
         else if !c.tradingEnabled then SpecUnverified
         else if !c.armed then NotArmed
         else if c.phase == Cancelling then PhaseCancelling
         else if c.phase == Dead then PhaseDead
         else if c.phase != Active then PhaseNotActive
         else if !c.windowTriggered then NotTriggered
         else if !c.strategyEnabled then StrategyDisabled
         else if c.intentExists then IntentDuplicated
         else if c.quotaUsed + c.quotaReserved >= c.maxTrades then QuotaExhausted
         else if !c.allowOpposing && c.direction.Opposite() in c.held then OpposingBlocked
         else if c.openPositions >= c.maxPositions then PositionLimitReached
         else if c.price > c.bandMax then PriceAboveBand
         else if c.price < c.bandMin then PriceBelowBand
         else if c.size <= 0.0 || c.size < c.minSize then SizeBelowMinimum
         else if c.maxDailyLoss > 0.0 && c.dailyLoss >= c.maxDailyLoss then LossLimitReached
         else if c.maxLossStreak > 0 && c.lossStreak >= c.maxLossStreak then LossLimitReached
         else if c.feedBlocked then FeedStale
         else if c.driftCritical then ClockDrift
         else if !c.healthy then RuntimeUnhealthy
         else if !c.supervisorReady then SupervisorNotReady
         else if !c.walletConnected then WalletDisconnected
         else if c.orphans != [] then OrphansUnreconciled
         else InsufficientBalance;
  }

  /** The first gates are silent exactly when there are no grounds for their reasons. */
  lemma EarlierSilent(k: nat, c: Context)
    requires k <= |GATE_ORDER|
    ensures (forall i | 0 <= i < k :: Denial(GATE_ORDER[i], c).None?) <==> forall q | Rank(q) < k :: !Grounds(q, c)
  {
    if forall i | 0 <= i < k :: Denial(GATE_ORDER[i], c).None? {
      forall q | Rank(q) < k
        ensures !Grounds(q, c)
      {
        if Grounds(q, c) { GroundsAreGiven(q, c); }
      }
    }
    if forall q | Rank(q) < k :: !Grounds(q, c) {
      forall i | 0 <= i < k
        ensures Denial(GATE_ORDER[i], c).None?
      {
        PositionInOrder(i);
        if Denial(GATE_ORDER[i], c).Some? { RefusalHasGrounds(GATE_ORDER[i], Denial(GATE_ORDER[i], c).value, c); }
      }
    }
  }

  /** The verdict is to allow exactly when trading, market, window, proposal, limits and process are all as they must be. */
  lemma AllowedExactly(c: Context)
    ensures Names(Allowed, c) <==> Open(c)
  {
    EarlierSilent(|GATE_ORDER|, c);
    if Open(c) {
      forall q
        ensures !Grounds(q, c)
      {
        NoGrounds(q, c);
      }
    } else {
      var r := SomeGrounds(c);
      GroundsAreGiven(r, c);
    }
  }

  /** An allowed proposal passed every one of the gates, and all is as it must be. */
  lemma AllowedPassedAll(c: Context, g: Gate)
    requires Names(Allowed, c)
    ensures Denial(g, c).None? && Open(c)
  {
    assert GATE_ORDER[Position(g)] == g;
    AllowedExactly(c);
  }

  /** So is the judgement. */
  lemma JudgedOpen(c: Context)
    ensures Judge(c).Allowed? <==> Open(c)
  {
    AllowedExactly(c);
    if Open(c) { OneVerdict(Judge(c), Allowed, c); }
  }

  lemma DeniedInOrder(g: Gate, r: Reason, c: Context)
    ensures Names(Denied(g, r), c) <==> Denial(g, c) == Some(r) && forall i | 0 <= i < Position(g) :: Denial(GATE_ORDER[i], c).None?
  {
    assert GATE_ORDER[Position(g)] == g;
    forall k | 0 <= k < |GATE_ORDER| && GATE_ORDER[k] == g
      ensures k == Position(g)
    {
      PositionInOrder(k);
    }
  }

  /** A gate gives a reason exactly when the reason is its own and there are grounds for it. */
  lemma GateSpeaks(g: Gate, r: Reason, c: Context)
    ensures Denial(g, c) == Some(r) <==> Position(g) == Rank(r) && Grounds(r, c)
  {
    if Denial(g, c) == Some(r) { RefusalHasGrounds(g, r, c); }
    if Grounds(r, c) && Position(g) == Rank(r) { GroundsAreGiven(r, c); }
  }

  /** A denial gives the earliest reason there are grounds for, and names the gate it belongs to. */
  lemma DeniedExactly(g: Gate, r: Reason, c: Context)
    ensures Names(Denied(g, r), c) <==>
              Position(g) == Rank(r) && Grounds(r, c) && forall q | Rank(q) < Rank(r) :: !Grounds(q, c)
  {
    DeniedInOrder(g, r, c);
    GateSpeaks(g, r, c);
    EarlierSilent(Position(g), c);
  }

  /** A reason tells which gate spoke. */
  lemma ReasonNamesGate(g: Gate, h: Gate, c: Context, e: Context)
    requires Denial(g, c).Some? && Denial(g, c) == Denial(h, e)
    ensures g == h
  {
    match g
    case TradingEnabled => case ExecutionArmed => case MarketPhase => case WindowTriggered => case PriceToBeat =>
    case StrategyEnabled => case DuplicateIntent => case TradeQuota => case OpposingDirection => case PositionLimit =>
    case EntryBand => case ExchangeMinimum => case LossLimits => case FeedFreshness => case RuntimeHealth =>
    case SupervisorReady => case WalletConnected => case OrphanOrders => case AvailableBalance =>
  }

  // ── the imperative form ───────────────────────────────────────────────────

  method Evaluate(c: Context) returns (v: Verdict)
    ensures Names(v, c)
    ensures v.Allowed? <==> Open(c)
    ensures v.Denied? ==> Position(v.gate) == Rank(v.reason) && Grounds(v.reason, c) && forall q | Rank(q) < Rank(v.reason) :: !Grounds(q, c)
  {
    AllowedExactly(c);
    for k := 0 to |GATE_ORDER|
      invariant forall i | 0 <= i < k :: Denial(GATE_ORDER[i], c).None?
    {
      var d := Denial(GATE_ORDER[k], c);
      if d.Some? {
        DeniedExactly(GATE_ORDER[k], d.value, c);
        return Denied(GATE_ORDER[k], d.value);
      }
    }
    return Allowed;
  }
}
