/**
 Settings rows: what a saved configuration prints, and what a loaded row builds.
 Setting names are constructors; only the names of the per-window overrides are composed text.
 */
module Settings {
  import opened Text
  import opened Decimals
  import opened Lists
  import opened Wrappers

  datatype TradingKey =
    | ExecutionWindows | Buffers | PositionNotional | MaxTrades | MaxConcurrent | MaxDailyLoss
    | MaxConsecutiveLosses | EntryMin | EntryMax | TickSize | MinTradable | SubmissionCount | CancelLead
    | CancelAckTimeout | FeedWarn | FeedCritical | DriftWarn | DriftCritical | RateSustained | RateBurst
    | AllowOpposing | RetentionDays

  datatype MajorityKey =
    | Enabled | TriggerLimitEnabled | BufferEnabled | RetryEnabled | RetryAttempts | Windows | LegacyWindow

  /** A window's own number: shared by every window, or overridden for one. */
  datatype Field = Buffer | TriggerPrice | TargetPrice | Shares | BandMin | BandMax

  /** Setting names. Overrides are named by window and field. */
  datatype Key = T(t: TradingKey) | M(m: MajorityKey) | Shared(f: Field) | Override(window: int, field: Field)

  type Values = map<Key, string>

  function Get(v: Values, k: Key): string {
    if k in v then v[k] else ""
  }

  function IntOf(v: Values, k: Key): Result<int, ConfigError> {
    match ParseInt(Get(v, k))
    case Some(n) => Ok(n)
    case None => Err(InvariantViolated)
  }

  function DecOf(v: Values, k: Key): Result<Dec, ConfigError> {
    match ParseDec(Get(v, k))
    case Some(d) => Ok(d)
    case None => Err(InvariantViolated)
  }

  function BoolOf(v: Values, k: Key): Result<bool, ConfigError> {
    match ParseBool(Get(v, k))
    case Some(b) => Ok(b)
    case None => Err(InvariantViolated)
  }

  /** How long a market lasts: no window may be as long. */
  const MARKET_SECONDS: int := 300

  // ── trading ───────────────────────────────────────────────────────────────

  datatype Trading = Trading(
    windows: seq<int>,
    buffers: map<int, Dec>,
    positionNotional: Dec,
    maxTrades: int,
    maxConcurrent: int,
    maxDailyLoss: Dec,
    maxConsecutiveLosses: int,
    entryMin: Dec,
    entryMax: Dec,
    tickSize: Dec,
    minTradable: Dec,
    submissionCount: int,
    cancelLead: int,
    cancelAckTimeout: int,
    feedWarn: int,
    feedCritical: int,
    driftWarn: int,
    driftCritical: int,
    rateSustained: int,
    rateBurst: int,
    allowOpposing: bool,
    retentionDays: int)

  /** Every window has exactly one positive buffer, and every window lies inside the market. */
  predicate WindowsOk(windows: seq<int>, buffers: map<int, Dec>) {
    && windows != []
    && (forall i | 0 <= i < |windows| :: 0 < windows[i] < 300)
    && (forall i | 0 <= i < |windows| :: windows[i] in buffers && buffers[windows[i]].Value() > 0.0)
    && (forall o | o in buffers :: o in windows)
  }

  predicate MoneyOk(t: Trading) {
    && t.positionNotional.Value() > 0.0
    && t.maxDailyLoss.Value() >= 0.0
    && t.tickSize.Value() > 0.0
    && t.minTradable.Value() > 0.0
    && 0.0 < t.entryMin.Value() < t.entryMax.Value() < 1.0
    && t.entryMax.Value() - t.entryMin.Value() >= t.tickSize.Value()
    && t.positionNotional.Value() / t.entryMax.Value() >= t.minTradable.Value()
    && t.submissionCount <= (t.positionNotional.Value() / t.entryMax.Value() / t.minTradable.Value()).Floor
  }

  predicate CountsOk(t: Trading) {
    && t.maxTrades > 0 && t.maxConcurrent > 0 && t.maxConsecutiveLosses >= 0 && t.submissionCount > 0
    && t.cancelLead > 0 && t.cancelAckTimeout > 0
    && 0 < t.feedWarn < t.feedCritical
    && 0 < t.driftWarn < t.driftCritical
    && 0 < t.rateSustained <= t.rateBurst
    && t.retentionDays > 0
  }

  /** No window opens inside the cancellation sweep. */
  predicate SweepOk(t: Trading) {
    forall i | 0 <= i < |t.windows| :: t.windows[i] as real > t.cancelLead as real / 1000.0
  }

  predicate TradingOk(t: Trading) {
    WindowsOk(t.windows, t.buffers) && MoneyOk(t) && CountsOk(t) && SweepOk(t)
  }

  // The checks as the builder makes them, in its order. Any of them refuses the whole configuration.

  function Earliest(xs: seq<int>): (m: int)
    requires xs != []
    ensures m in xs && forall x | x in xs :: m <= x
  {
    if |xs| == 1 then xs[0]
    else
      assert xs == xs[..|xs| - 1] + [xs[|xs| - 1]];
      var m := Earliest(xs[..|xs| - 1]);
      if xs[|xs| - 1] < m then xs[|xs| - 1] else m
  }

  predicate WindowsRefused(t: Trading) {
    || t.windows == []
    || (exists i | 0 <= i < |t.windows| :: t.windows[i] <= 0 || t.windows[i] >= MARKET_SECONDS)
    || (exists i | 0 <= i < |t.windows| :: t.windows[i] !in t.buffers)
    || (exists o | o in t.buffers :: o !in t.windows)
    || (exists i | 0 <= i < |t.windows| :: t.buffers[t.windows[i]].Value() <= 0.0)
  }

  predicate MoneyRefused(t: Trading) {
    || t.positionNotional.Value() <= 0.0 || t.maxDailyLoss.Value() < 0.0
    || t.tickSize.Value() <= 0.0 || t.minTradable.Value() <= 0.0
    || t.entryMin.Value() >= t.entryMax.Value() || t.entryMin.Value() <= 0.0 || t.entryMax.Value() >= 1.0
    || t.entryMax.Value() - t.entryMin.Value() < t.tickSize.Value()
    || t.positionNotional.Value() / t.entryMax.Value() < t.minTradable.Value()
    || t.submissionCount > (t.positionNotional.Value() / t.entryMax.Value() / t.minTradable.Value()).Floor
  }

  predicate CountsRefused(t: Trading) {
    || t.maxTrades <= 0 || t.maxConcurrent <= 0 || t.maxConsecutiveLosses < 0 || t.submissionCount <= 0
    || t.cancelLead <= 0 || t.cancelAckTimeout <= 0
    || t.feedWarn <= 0 || t.feedCritical <= 0 || t.feedWarn >= t.feedCritical
    || t.driftWarn <= 0 || t.driftCritical <= 0 || t.driftWarn >= t.driftCritical
    || t.rateSustained <= 0 || t.rateBurst <= 0 || t.rateBurst < t.rateSustained
    || t.retentionDays <= 0
  }

  predicate SweepRefused(t: Trading)
    requires t.windows != []
  {
    Earliest(t.windows) as real <= t.cancelLead as real / 1000.0
  }

  predicate Refused(t: Trading) {
    WindowsRefused(t) || MoneyRefused(t) || CountsRefused(t) || SweepRefused(t)
  }

  lemma SweepRefusedIff(t: Trading)
    requires t.windows != []
    ensures SweepRefused(t) <==> !SweepOk(t)
  {
    var m := Earliest(t.windows);
    var k :| 0 <= k < |t.windows| && t.windows[k] == m;
    if !SweepRefused(t) {
      forall i | 0 <= i < |t.windows|
        ensures t.windows[i] as real > t.cancelLead as real / 1000.0
      {
        assert t.windows[i] in t.windows;
      }
    }
  }

  /** The checks refuse exactly what is not valid. */
  lemma RefusedExactly(t: Trading)
    ensures Refused(t) <==> !TradingOk(t)
  {
    if t.windows != [] { SweepRefusedIff(t); }
    assert WindowsRefused(t) <==> !WindowsOk(t.windows, t.buffers);
  }

  function WindowsOf(v: Values): (r: Result<seq<int>, ConfigError>)
    ensures r.Ok? ==> Increasing(r.value)
  {
    var raw := Get(v, T(ExecutionWindows));
    if Strip(raw) == "" then Err(InvariantViolated)
    else match ParseInts(Split(raw, ','))
      case None => Err(InvariantViolated)
      case Some(xs) =>
        SortedSetIs(xs);
        if |SortedSet(xs)| != |xs| then Err(InvariantViolated) else Ok(SortedSet(xs))
  }

  function BuffersOf(v: Values): Result<map<int, Dec>, ConfigError> {
    var raw := Get(v, T(Buffers));
    if Strip(raw) == "" then Err(InvariantViolated)
    else match ParseBuffers(Split(raw, ','))
      case None => Err(InvariantViolated)
      case Some(m) => Ok(m)
  }

  type Counts = TradingKey -> Result<int, ConfigError>
  type Moneys = TradingKey -> Result<Dec, ConfigError>

  datatype Amounts = Amounts(positionNotional: Dec, maxDailyLoss: Dec, entryMin: Dec, entryMax: Dec, tickSize: Dec, minTradable: Dec)

  function CollectAmounts(d: Moneys): Result<Amounts, ConfigError> {
    var positionNotional :- d(PositionNotional);
    var maxDailyLoss :- d(MaxDailyLoss);
    var entryMin :- d(EntryMin);
    var entryMax :- d(EntryMax);
    var tickSize :- d(TickSize);
    var minTradable :- d(MinTradable);
    Ok(Amounts(positionNotional, maxDailyLoss, entryMin, entryMax, tickSize, minTradable))
  }

  datatype Timings = Timings(cancelLead: int, cancelAckTimeout: int, feedWarn: int, feedCritical: int, driftWarn: int, driftCritical: int)

  function CollectTimings(n: Counts): Result<Timings, ConfigError> {
    var cancelLead :- n(CancelLead);
    var cancelAckTimeout :- n(CancelAckTimeout);
    var feedWarn :- n(FeedWarn);
    var feedCritical :- n(FeedCritical);
    var driftWarn :- n(DriftWarn);
    var driftCritical :- n(DriftCritical);
    Ok(Timings(cancelLead, cancelAckTimeout, feedWarn, feedCritical, driftWarn, driftCritical))
  }

  datatype Caps = Caps(maxTrades: int, maxConcurrent: int, maxConsecutiveLosses: int, submissionCount: int, rateSustained: int, rateBurst: int, retentionDays: int)

  function CollectCaps(n: Counts): Result<Caps, ConfigError> {
    var maxTrades :- n(MaxTrades);
    var maxConcurrent :- n(MaxConcurrent);
    var maxConsecutiveLosses :- n(MaxConsecutiveLosses);
    var submissionCount :- n(SubmissionCount);
    var rateSustained :- n(RateSustained);
    var rateBurst :- n(RateBurst);
    var retentionDays :- n(RetentionDays);
    Ok(Caps(maxTrades, maxConcurrent, maxConsecutiveLosses, submissionCount, rateSustained, rateBurst, retentionDays))
  }

  /** Every value, or a refusal: none is defaulted. */
  function Collect(ws: Result<seq<int>, ConfigError>, bs: Result<map<int, Dec>, ConfigError>, n: Counts, d: Moneys, opposing: Result<bool, ConfigError>)
    : (r: Result<Trading, ConfigError>)
    ensures r.Ok? ==> ws == Ok(r.value.windows)
  {
    var windows :- ws;
    var buffers :- bs;
    var a :- CollectAmounts(d);
    var t :- CollectTimings(n);
    var c :- CollectCaps(n);
    var allowOpposing :- opposing;
    Ok(Trading(windows, buffers, a.positionNotional, c.maxTrades, c.maxConcurrent, a.maxDailyLoss, c.maxConsecutiveLosses,
               a.entryMin, a.entryMax, a.tickSize, a.minTradable, c.submissionCount, t.cancelLead, t.cancelAckTimeout,
               t.feedWarn, t.feedCritical, t.driftWarn, t.driftCritical, c.rateSustained, c.rateBurst, allowOpposing, c.retentionDays))
  }

  function Checked(r: Result<Trading, ConfigError>): (c: Result<Trading, ConfigError>)
    ensures c.Ok? ==> TradingOk(c.value) && c == r
  {
    if r.Ok? then
      RefusedExactly(r.value);
      if Refused(r.value) then Err(InvariantViolated) else r
    else r
  }

  /** Build, or refuse: no value is defaulted, and no check is skipped. */
  function TradingOf(v: Values): (r: Result<Trading, ConfigError>)
    ensures r.Ok? ==> TradingOk(r.value) && Increasing(r.value.windows)
  {
    Checked(Collect(WindowsOf(v), BuffersOf(v), k => IntOf(v, T(k)), k => DecOf(v, T(k)), BoolOf(v, T(AllowOpposing))))
  }

  predicate IsCount(k: TradingKey) {
    !k.ExecutionWindows? && !k.Buffers? && !IsMoney(k) && !k.AllowOpposing?
  }

  predicate IsMoney(k: TradingKey) {
    k.PositionNotional? || k.MaxDailyLoss? || k.EntryMin? || k.EntryMax? || k.TickSize? || k.MinTradable?
  }

  function CountAt(t: Trading, k: TradingKey): int
    requires IsCount(k)
  {
    match k
    case MaxTrades => t.maxTrades
    case MaxConcurrent => t.maxConcurrent
    case MaxConsecutiveLosses => t.maxConsecutiveLosses
    case SubmissionCount => t.submissionCount
    case CancelLead => t.cancelLead
    case CancelAckTimeout => t.cancelAckTimeout
    case FeedWarn => t.feedWarn
    case FeedCritical => t.feedCritical
    case DriftWarn => t.driftWarn
    case DriftCritical => t.driftCritical
    case RateSustained => t.rateSustained
    case RateBurst => t.rateBurst
    case RetentionDays => t.retentionDays
  }

  function MoneyAt(t: Trading, k: TradingKey): Dec
    requires IsMoney(k)
  {
    match k
    case PositionNotional => t.positionNotional
    case MaxDailyLoss => t.maxDailyLoss
    case EntryMin => t.entryMin
    case EntryMax => t.entryMax
    case TickSize => t.tickSize
    case MinTradable => t.minTradable
  }

  function TradingText(t: Trading, k: TradingKey): string
    requires WindowsOk(t.windows, t.buffers)
  {
    if k.ExecutionWindows? then WindowsText(t.windows)
    else if k.Buffers? then BuffersText(t.windows, t.buffers)
    else if k.AllowOpposing? then BoolText(t.allowOpposing)
    else if IsMoney(k) then DecText(MoneyAt(t, k))
    else IntText(CountAt(t, k))
  }

  const TRADING_KEYS: set<TradingKey> := {
    ExecutionWindows, Buffers, PositionNotional, MaxTrades, MaxConcurrent, MaxDailyLoss, MaxConsecutiveLosses,
    EntryMin, EntryMax, TickSize, MinTradable, SubmissionCount, CancelLead, CancelAckTimeout, FeedWarn, FeedCritical,
    DriftWarn, DriftCritical, RateSustained, RateBurst, AllowOpposing, RetentionDays}

  function PrintTrading(t: Trading): Values
    requires WindowsOk(t.windows, t.buffers)
  {
    map k | k in TRADING_KEYS :: T(k) := TradingText(t, k)
  }

  /** A row that holds this configuration's trading half, whatever else it holds. */
  ghost predicate PrintsTrading(v: Values, t: Trading)
    requires WindowsOk(t.windows, t.buffers)
  {
    forall k: TradingKey :: T(k) in v && v[T(k)] == TradingText(t, k)
  }

  lemma PrintedKey(t: Trading, k: TradingKey)
    requires WindowsOk(t.windows, t.buffers)
    ensures T(k) in PrintTrading(t) && PrintTrading(t)[T(k)] == TradingText(t, k)
  {
    assert k in TRADING_KEYS;
  }

  lemma ReadInt(v: Values, k: Key, n: int)
    requires k in v && v[k] == IntText(n)
    ensures IntOf(v, k) == Ok(n)
  {
    IntRoundTrip(n);
  }

  lemma ReadDec(v: Values, k: Key, d: Dec)
    requires k in v && v[k] == DecText(d)
    ensures DecOf(v, k) == Ok(d)
  {
    DecRoundTrip(d);
  }

  lemma ReadBool(v: Values, k: Key, b: bool)
    requires k in v && v[k] == BoolText(b)
    ensures BoolOf(v, k) == Ok(b)
  {
    BoolRoundTrip(b);
  }

  lemma ReadWindows(v: Values, t: Trading)
    requires WindowsOk(t.windows, t.buffers) && PrintsTrading(v, t) && Increasing(t.windows)
    ensures WindowsOf(v) == Ok(t.windows)
  {
    assert v[T(ExecutionWindows)] == TradingText(t, ExecutionWindows);
    WindowsRoundTrip(t.windows);
    SortedSetFixed(t.windows);
  }

  /** Any printed list of windows is read in order, and refused when it repeats one. */
  lemma WindowListRead(v: Values, xs: seq<int>)
    requires xs != [] && T(ExecutionWindows) in v && v[T(ExecutionWindows)] == WindowsText(xs)
    ensures WindowsOf(v) == if NoRepeats(xs) then Ok(SortedSet(xs)) else Err(InvariantViolated)
  {
    WindowsRoundTrip(xs);
    SortedSetLength(xs);
  }

  lemma ReadBuffers(v: Values, t: Trading)
    requires WindowsOk(t.windows, t.buffers) && PrintsTrading(v, t) && Increasing(t.windows)
    ensures BuffersOf(v) == Ok(t.buffers)
  {
    assert v[T(Buffers)] == TradingText(t, Buffers);
    BuffersRoundTrip(t.windows, t.buffers);
  }

  lemma ReadCount(v: Values, t: Trading, k: TradingKey)
    requires WindowsOk(t.windows, t.buffers) && T(k) in v && v[T(k)] == TradingText(t, k) && IsCount(k)
    ensures IntOf(v, T(k)) == Ok(CountAt(t, k))
  {
    ReadInt(v, T(k), CountAt(t, k));
  }

  lemma ReadMoney(v: Values, t: Trading, k: TradingKey)
    requires WindowsOk(t.windows, t.buffers) && T(k) in v && v[T(k)] == TradingText(t, k) && IsMoney(k)
    ensures DecOf(v, T(k)) == Ok(MoneyAt(t, k))
  {
    ReadDec(v, T(k), MoneyAt(t, k));
  }

  lemma AmountsCollected(t: Trading, d: Moneys)
    requires forall k | IsMoney(k) :: d(k) == Ok(MoneyAt(t, k))
    ensures CollectAmounts(d) == Ok(Amounts(t.positionNotional, t.maxDailyLoss, t.entryMin, t.entryMax, t.tickSize, t.minTradable))
  {
  }

  lemma TimingsCollected(t: Trading, n: Counts)
    requires forall k | IsCount(k) :: n(k) == Ok(CountAt(t, k))
    ensures CollectTimings(n) == Ok(Timings(t.cancelLead, t.cancelAckTimeout, t.feedWarn, t.feedCritical, t.driftWarn, t.driftCritical))
  {
  }

  lemma CapsCollected(t: Trading, n: Counts)
    requires forall k | IsCount(k) :: n(k) == Ok(CountAt(t, k))
    ensures CollectCaps(n) == Ok(Caps(t.maxTrades, t.maxConcurrent, t.maxConsecutiveLosses, t.submissionCount, t.rateSustained, t.rateBurst, t.retentionDays))
  {
  }

  lemma Collected(t: Trading, n: Counts, d: Moneys)
    requires forall k | IsCount(k) :: n(k) == Ok(CountAt(t, k))
    requires forall k | IsMoney(k) :: d(k) == Ok(MoneyAt(t, k))
    ensures Collect(Ok(t.windows), Ok(t.buffers), n, d, Ok(t.allowOpposing)) == Ok(t)
  {
    AmountsCollected(t, d);
    TimingsCollected(t, n);
    CapsCollected(t, n);
  }

  lemma TradingCollected(row: Values, t: Trading)
    requires Collect(WindowsOf(row), BuffersOf(row), k => IntOf(row, T(k)), k => DecOf(row, T(k)), BoolOf(row, T(AllowOpposing))) == Ok(t) && TradingOk(t)
    ensures TradingOf(row) == Ok(t)
  {
    RefusedExactly(t);
  }

  /** A valid configuration, printed into any row, is what the row builds. */
  lemma TradingRead(t: Trading, row: Values)
    requires TradingOk(t) && Increasing(t.windows) && PrintsTrading(row, t)
    ensures TradingOf(row) == Ok(t)
  {
    ReadWindows(row, t);
    ReadBuffers(row, t);
    assert row[T(AllowOpposing)] == TradingText(t, AllowOpposing);
    ReadBool(row, T(AllowOpposing), t.allowOpposing);
    var n: Counts := k => IntOf(row, T(k));
    var d: Moneys := k => DecOf(row, T(k));
    forall k | IsCount(k)
      ensures n(k) == Ok(CountAt(t, k))
    {
      ReadCount(row, t, k);
    }
    forall k | IsMoney(k)
      ensures d(k) == Ok(MoneyAt(t, k))
    {
      ReadMoney(row, t, k);
    }
    Collected(t, n, d);
    TradingCollected(row, t);
  }

  /** What can be built at all is exactly what passes every check, with its windows in order. */
  lemma TradingIsBuiltExactly(t: Trading)
    ensures (exists row :: TradingOf(row) == Ok(t)) <==> TradingOk(t) && Increasing(t.windows)
  {
    if TradingOk(t) && Increasing(t.windows) {
      forall k: TradingKey
        ensures T(k) in PrintTrading(t) && PrintTrading(t)[T(k)] == TradingText(t, k)
      {
        PrintedKey(t, k);
      }
      TradingRead(t, PrintTrading(t));
    }
  }

  /** Any configuration the builder produced, printed into any row, is rebuilt exactly. */
  lemma TradingRoundTrip(source: Values, row: Values)
    requires TradingOf(source).Ok? && PrintsTrading(row, TradingOf(source).value)
    ensures TradingOf(row) == TradingOf(source)
  {
    TradingRead(TradingOf(source).value, row);
  }

  // ── MAJORITY ──────────────────────────────────────────────────────────────

  const ATTEMPTS_MIN: int := 5
  const ATTEMPTS_MAX: int := 10
  const ATTEMPTS_DEFAULT: int := 5

  datatype MajorityWindow = MajorityWindow(offset: int, buffer: Dec, trigger: Dec, target: Dec, shares: Dec, bandMin: Dec, bandMax: Dec)

  datatype Majority = Majority(enabled: bool, windows: seq<MajorityWindow>, limitMode: bool, bufferOn: bool, retryOn: bool, attempts: int)

  const DISABLED: Majority := Majority(false, [], false, false, false, ATTEMPTS_DEFAULT)

  function FieldAt(w: MajorityWindow, f: Field): Dec {
    match f
    case Buffer => w.buffer
    case TriggerPrice => w.trigger
    case TargetPrice => w.target
    case Shares => w.shares
    case BandMin => w.bandMin
    case BandMax => w.bandMax
  }

  predicate WindowOk(w: MajorityWindow, minSize: Dec, tick: Dec) {
    && 0 < w.offset < 300
    && w.buffer.Value() >= 0.0 && w.trigger.Value() > 0.0 && w.target.Value() > 0.0
    && 0.0 < w.bandMin.Value() < w.bandMax.Value()
    && w.bandMax.Value() - w.bandMin.Value() >= tick.Value()
    && w.bandMin.Value() <= w.target.Value() <= w.bandMax.Value()
    && w.shares.Value() > 0.0 && w.shares.Value() >= minSize.Value()
  }

  /** The builder's checks of one window, in its order. */
  predicate WindowRefused(w: MajorityWindow, minSize: Dec, tick: Dec) {
    || w.offset <= 0 || w.offset >= MARKET_SECONDS
    || w.buffer.Value() < 0.0
    || w.trigger.Value() <= 0.0 || w.target.Value() <= 0.0
    || w.bandMin.Value() >= w.bandMax.Value() || w.bandMin.Value() <= 0.0
    || w.bandMax.Value() - w.bandMin.Value() < tick.Value()
    || w.target.Value() > w.bandMax.Value() || w.target.Value() < w.bandMin.Value()
    || w.shares.Value() <= 0.0 || w.shares.Value() < minSize.Value()
  }

  /** A window's override when it says anything, the shared value otherwise. */
  function FieldText(v: Values, offset: int, f: Field): string {
    if Strip(Get(v, Override(offset, f))) != "" then Get(v, Override(offset, f)) else Get(v, Shared(f))
  }

  function FieldOf(v: Values, offset: int, f: Field): Result<Dec, ConfigError> {
    match ParseDec(FieldText(v, offset, f))
    case Some(d) => Ok(d)
    case None => Err(InvariantViolated)
  }

  type Fields = Field -> Result<Dec, ConfigError>

  function FieldsOf(v: Values, offset: int): Fields {
    f => FieldOf(v, offset, f)
  }

  function WindowRead(offset: int, d: Fields): (r: Result<MajorityWindow, ConfigError>)
    ensures r.Ok? ==> r.value.offset == offset
  {
    var buffer :- d(Buffer);
    var trigger :- d(TriggerPrice);
    var target :- d(TargetPrice);
    var bandMin :- d(BandMin);
    var bandMax :- d(BandMax);
    var shares :- d(Shares);
    Ok(MajorityWindow(offset, buffer, trigger, target, shares, bandMin, bandMax))
  }

  function WindowFrom(offset: int, d: Fields, minSize: Dec, tick: Dec): (r: Result<MajorityWindow, ConfigError>)
    ensures r.Ok? ==> r.value.offset == offset && WindowOk(r.value, minSize, tick)
  {
    var w :- WindowRead(offset, d);
    if WindowRefused(w, minSize, tick) then Err(InvariantViolated) else Ok(w)
  }

  type Builder = int -> Result<MajorityWindow, ConfigError>

  function BuilderFor(v: Values, minSize: Dec, tick: Dec): Builder {
    offset => WindowFrom(offset, FieldsOf(v, offset), minSize, tick)
  }

  /** The first `n` windows, or the first refusal. */
  function WindowsUpTo(build: Builder, offsets: seq<int>, n: nat): Result<seq<MajorityWindow>, ConfigError>
    requires n <= |offsets|
  {
    if n == 0 then Ok([])
    else
      var before :- WindowsUpTo(build, offsets, n - 1);
      var last :- build(offsets[n - 1]);
      Ok(before + [last])
  }

  function WindowsFrom(v: Values, offsets: seq<int>, minSize: Dec, tick: Dec): Result<seq<MajorityWindow>, ConfigError> {
    WindowsUpTo(BuilderFor(v, minSize, tick), offsets, |offsets|)
  }

  lemma {:induction false} WindowsAreBuilt(build: Builder, offsets: seq<int>, n: nat)
    requires n <= |offsets| && WindowsUpTo(build, offsets, n).Ok?
    ensures var ws := WindowsUpTo(build, offsets, n).value;
            |ws| == n && forall i | 0 <= i < n :: build(offsets[i]) == Ok(ws[i])
  {
    if n > 0 {
      WindowsAreBuilt(build, offsets, n - 1);
    }
  }

  lemma WindowsAreOk(v: Values, offsets: seq<int>, minSize: Dec, tick: Dec)
    requires WindowsFrom(v, offsets, minSize, tick).Ok?
    ensures var ws := WindowsFrom(v, offsets, minSize, tick).value;
            Offsets(ws) == offsets && forall i | 0 <= i < |ws| :: WindowOk(ws[i], minSize, tick)
  {
    var ws := WindowsFrom(v, offsets, minSize, tick).value;
    WindowsAreBuilt(BuilderFor(v, minSize, tick), offsets, |offsets|);
    forall i | 0 <= i < |ws|
      ensures ws[i].offset == offsets[i] && WindowOk(ws[i], minSize, tick)
    {
      assert BuilderFor(v, minSize, tick)(offsets[i]) == Ok(ws[i]);
    }
  }

  /** The window list, or the old single-window value when the list says nothing. */
  function OffsetsOf(v: Values): (r: Result<seq<int>, ConfigError>)
    ensures r.Ok? ==> Increasing(r.value)
  {
    var raw, legacy := Strip(Get(v, M(Windows))), Strip(Get(v, M(LegacyWindow)));
    if raw != "" then
      (match ParseInts(Split(raw, ','))
       case None => Err(InvariantViolated)
       case Some(xs) =>
         SortedSetIs(xs);
         if exists i | 0 <= i < |xs| :: xs[i] <= 0 then Err(InvariantViolated) else Ok(SortedSet(xs)))
    else if legacy != "" then (match ParseInt(legacy) case None => Err(InvariantViolated) case Some(n) => Ok([n]))
    else Ok([])
  }

  /** A printed list is read in order, repetitions once, and refused when a window is not positive; only a blank one lets the old window speak. */
  lemma OffsetsRead(v: Values, xs: seq<int>, legacy: int)
    requires M(Windows) in v && v[M(Windows)] == WindowsText(xs)
    ensures xs != [] ==> OffsetsOf(v) == if forall x | x in xs :: x > 0 then Ok(SortedSet(xs)) else Err(InvariantViolated)
    ensures xs == [] && Get(v, M(LegacyWindow)) == IntText(legacy) ==> OffsetsOf(v) == Ok([legacy])
    ensures xs == [] && Get(v, M(LegacyWindow)) == "" ==> OffsetsOf(v) == Ok([])
  {
    StripTight("");
    if xs != [] {
      WindowsRoundTrip(xs);
      if i :| 0 <= i < |xs| && xs[i] <= 0 {
        assert xs[i] in xs;
      } else {
        assert forall x | x in xs :: x > 0;
      }
    } else {
      IntTextTight(legacy);
      StripTight(IntText(legacy));
      IntRoundTrip(legacy);
    }
  }

  function AttemptsOf(v: Values): (r: Result<int, ConfigError>)
    ensures r.Ok? ==> ATTEMPTS_MIN <= r.value <= ATTEMPTS_MAX
  {
    if Strip(Get(v, M(RetryAttempts))) == "" then Ok(ATTEMPTS_DEFAULT)
    else match ParseInt(Get(v, M(RetryAttempts)))
      case None => Err(InvariantViolated)
      case Some(n) => if ATTEMPTS_MIN <= n <= ATTEMPTS_MAX then Ok(n) else Err(InvariantViolated)
  }

  /** Blank attempts are five; printed ones are read, and refused outside five to ten. */
  lemma AttemptsRead(v: Values, n: int)
    ensures Get(v, M(RetryAttempts)) == "" ==> AttemptsOf(v) == Ok(5)
    ensures Get(v, M(RetryAttempts)) == IntText(n) ==> AttemptsOf(v) == if 5 <= n <= 10 then Ok(n) else Err(InvariantViolated)
  {
    StripTight("");
    IntTextTight(n);
    StripTight(IntText(n));
    IntRoundTrip(n);
  }

  function Offsets(ws: seq<MajorityWindow>): (xs: seq<int>)
    ensures |xs| == |ws|
  {
    seq(|ws|, i requires 0 <= i < |ws| => ws[i].offset)
  }

  /** Off, and then nothing else is read; or on, with every window validated. */
  function MajorityOf(v: Values, minSize: Dec, tick: Dec): (r: Result<Majority, ConfigError>)
    ensures r.Ok? && !r.value.enabled ==> r.value == DISABLED
    ensures r.Ok? ==> ATTEMPTS_MIN <= r.value.attempts <= ATTEMPTS_MAX
  {
    var enabled :- BoolOf(v, M(Enabled));
    if !enabled then Ok(DISABLED)
    else
      var limitMode :- BoolOf(v, M(TriggerLimitEnabled));
      var bufferOn :- BoolOf(v, M(BufferEnabled));
      var retryOn :- BoolOf(v, M(RetryEnabled));
      var attempts :- AttemptsOf(v);
      var offsets :- OffsetsOf(v);
      var windows :- WindowsFrom(v, offsets, minSize, tick);
      Ok(Majority(true, windows, limitMode, bufferOn, retryOn, attempts))
  }

  // ── what a MAJORITY configuration prints ──────────────────────────────────

  const FIELDS: set<Field> := {Buffer, TriggerPrice, TargetPrice, Shares, BandMin, BandMax}

  function FlagTexts(m: Majority): Values {
    map[
      M(Enabled) := BoolText(m.enabled),
      M(TriggerLimitEnabled) := BoolText(m.limitMode),
      M(BufferEnabled) := BoolText(m.bufferOn),
      M(RetryEnabled) := BoolText(m.retryOn),
      M(RetryAttempts) := IntText(m.attempts),
      M(Windows) := WindowsText(Offsets(m.windows))]
  }

  function SharedTexts(w: MajorityWindow): Values {
    map f | f in FIELDS :: Shared(f) := DecText(FieldAt(w, f))
  }

  /** Rows merged in turn, later ones winning. */
  function MergeAll(parts: seq<Values>, n: nat): Values
    requires n <= |parts|
  {
    if n == 0 then map[] else MergeAll(parts, n - 1) + parts[n - 1]
  }

  function AllWindowTexts(ws: seq<MajorityWindow>): (parts: seq<Values>)
    ensures |parts| == |ws|
  {
    seq(|ws|, i requires 0 <= i < |ws| => WindowTexts(ws[i]))
  }

  function OverrideTexts(ws: seq<MajorityWindow>): Values {
    MergeAll(AllWindowTexts(ws), |ws|)
  }

  function WindowTexts(w: MajorityWindow): Values {
    map f | f in FIELDS :: Override(w.offset, f) := DecText(FieldAt(w, f))
  }

  lemma EveryField(f: Field)
    ensures f in FIELDS
  {
    match f
    case Buffer => case TriggerPrice => case TargetPrice => case Shares => case BandMin => case BandMax =>
  }

  lemma WindowTextsHold(w: MajorityWindow, k: Key)
    ensures k in WindowTexts(w) <==> k.Override? && k.window == w.offset
    ensures k.Override? && k.window == w.offset ==> WindowTexts(w)[k] == DecText(FieldAt(w, k.field))
  {
    if k.Override? { EveryField(k.field); }
  }

  /** The switches, the first window's numbers as the shared ones, and every window's own. */
  function PrintMajority(m: Majority): Values {
    FlagTexts(m) + (if m.windows == [] then map[] else SharedTexts(m.windows[0])) + OverrideTexts(m.windows)
  }

  /** The row says a window's number: as its override, or as the shared value with a blank override or none. */
  ghost predicate Says(v: Values, w: MajorityWindow, f: Field) {
    var own, text := Override(w.offset, f), DecText(FieldAt(w, f));
    || (own in v && v[own] == text)
    || ((own in v ==> Strip(v[own]) == "") && Shared(f) in v && v[Shared(f)] == text)
  }

  ghost predicate PrintsMajority(v: Values, m: Majority) {
    && (forall k | k in FlagTexts(m) :: k in v && v[k] == FlagTexts(m)[k])
    && (forall i, f | 0 <= i < |m.windows| :: Says(v, m.windows[i], f))
  }

  lemma {:induction false} MergedKeeps(parts: seq<Values>, n: nat, i: nat, k: Key)
    requires i < n <= |parts| && k in parts[i] && forall j | i < j < n :: k !in parts[j]
    ensures k in MergeAll(parts, n) && MergeAll(parts, n)[k] == parts[i][k]
  {
    if i < n - 1 {
      MergedKeeps(parts, n - 1, i, k);
    }
  }

  lemma {:induction false} MergedFrom(parts: seq<Values>, n: nat, k: Key)
    requires n <= |parts| && k in MergeAll(parts, n)
    ensures exists i | 0 <= i < n :: k in parts[i]
  {
    if k !in parts[n - 1] {
      MergedFrom(parts, n - 1, k);
    }
  }

  lemma OverridesOnly(ws: seq<MajorityWindow>, k: Key)
    requires k in OverrideTexts(ws)
    ensures k.Override?
  {
    MergedFrom(AllWindowTexts(ws), |ws|, k);
    var i :| 0 <= i < |ws| && k in AllWindowTexts(ws)[i];
    assert k in WindowTexts(ws[i]);
  }

  lemma OverridesHold(ws: seq<MajorityWindow>, i: nat, f: Field)
    requires Increasing(Offsets(ws)) && i < |ws|
    ensures Override(ws[i].offset, f) in OverrideTexts(ws)
    ensures OverrideTexts(ws)[Override(ws[i].offset, f)] == DecText(FieldAt(ws[i], f))
  {
    var k, parts := Override(ws[i].offset, f), AllWindowTexts(ws);
    WindowTextsHold(ws[i], k);
    forall j | i < j < |ws|
      ensures k !in parts[j]
    {
      assert Offsets(ws)[i] < Offsets(ws)[j];
      WindowTextsHold(ws[j], k);
    }
    MergedKeeps(parts, |ws|, i, k);
  }

  lemma FlagKeys(m: Majority, k: Key)
    requires k in FlagTexts(m)
    ensures k.M? && !k.m.LegacyWindow?
  {
  }

  lemma FlagsPrinted(m: Majority, k: Key)
    requires k in FlagTexts(m)
    ensures k in PrintMajority(m) && PrintMajority(m)[k] == FlagTexts(m)[k]
  {
    FlagKeys(m, k);
    if k in OverrideTexts(m.windows) { OverridesOnly(m.windows, k); }
  }

  lemma PrintMajorityPrints(m: Majority, saved: Values)
    requires Increasing(Offsets(m.windows))
    ensures PrintsMajority(saved + PrintMajority(m), m)
  {
    var v := saved + PrintMajority(m);
    forall k | k in FlagTexts(m)
      ensures k in v && v[k] == FlagTexts(m)[k]
    {
      FlagsPrinted(m, k);
    }
    forall i, f | 0 <= i < |m.windows|
      ensures Says(v, m.windows[i], f)
    {
      OverridesHold(m.windows, i, f);
    }
  }

  lemma PrintMajorityKeys(m: Majority, k: Key)
    requires k in PrintMajority(m)
    ensures !k.T? && k != M(LegacyWindow)
  {
    if k in FlagTexts(m) { FlagKeys(m, k); }
    if k in OverrideTexts(m.windows) { OverridesOnly(m.windows, k); }
    assert k in OverrideTexts(m.windows) || k in FlagTexts(m) || k in SharedTexts(m.windows[0]);
  }

  // ── and what it builds again ──────────────────────────────────────────────

  /** The one disabled configuration, or an enabled one with its attempts in range and every window valid, in order. */
  ghost predicate MajorityOk(m: Majority, minSize: Dec, tick: Dec) {
    if !m.enabled then m == Majority(false, [], false, false, false, 5)
    else
      && 5 <= m.attempts <= 10
      && Increasing(Offsets(m.windows))
      && (forall i | 0 <= i < |m.windows| :: WindowOk(m.windows[i], minSize, tick))
  }

  lemma BuiltMajority(v: Values, minSize: Dec, tick: Dec)
    requires MajorityOf(v, minSize, tick).Ok?
    ensures MajorityOk(MajorityOf(v, minSize, tick).value, minSize, tick)
  {
    var m := MajorityOf(v, minSize, tick).value;
    if m.enabled {
      WindowsAreOk(v, OffsetsOf(v).value, minSize, tick);
    }
  }

  lemma ReadField(v: Values, w: MajorityWindow, f: Field)
    requires Says(v, w, f)
    ensures FieldOf(v, w.offset, f) == Ok(FieldAt(w, f))
  {
    StripTight("");
    DecTextTight(FieldAt(w, f));
    StripTight(DecText(FieldAt(w, f)));
    DecRoundTrip(FieldAt(w, f));
  }

  lemma WindowRebuilt(w: MajorityWindow, d: Fields, minSize: Dec, tick: Dec)
    requires WindowOk(w, minSize, tick) && forall f :: d(f) == Ok(FieldAt(w, f))
    ensures WindowFrom(w.offset, d, minSize, tick) == Ok(w)
  {
  }

  lemma ReadFields(v: Values, w: MajorityWindow)
    requires forall f :: Says(v, w, f)
    ensures forall f :: FieldsOf(v, w.offset)(f) == Ok(FieldAt(w, f))
  {
    forall f
      ensures FieldsOf(v, w.offset)(f) == Ok(FieldAt(w, f))
    {
      ReadField(v, w, f);
    }
  }

  lemma {:induction false} RebuiltOneByOne(build: Builder, ws: seq<MajorityWindow>, n: nat)
    requires n <= |ws| && forall i | 0 <= i < |ws| :: build(ws[i].offset) == Ok(ws[i])
    ensures WindowsUpTo(build, Offsets(ws), n) == Ok(ws[..n])
  {
    if n > 0 {
      RebuiltOneByOne(build, ws, n - 1);
      assert build(ws[n - 1].offset) == Ok(ws[n - 1]);
      assert ws[..n - 1] + [ws[n - 1]] == ws[..n];
    }
  }

  lemma WindowsRebuilt(v: Values, ws: seq<MajorityWindow>, minSize: Dec, tick: Dec)
    requires forall i | 0 <= i < |ws| :: WindowOk(ws[i], minSize, tick)
    requires forall i, f | 0 <= i < |ws| :: Says(v, ws[i], f)
    ensures WindowsFrom(v, Offsets(ws), minSize, tick) == Ok(ws)
  {
    var build := BuilderFor(v, minSize, tick);
    forall i | 0 <= i < |ws|
      ensures build(ws[i].offset) == Ok(ws[i])
    {
      ReadFields(v, ws[i]);
      WindowRebuilt(ws[i], FieldsOf(v, ws[i].offset), minSize, tick);
    }
    RebuiltOneByOne(build, ws, |ws|);
    assert ws[..|ws|] == ws;
  }

  lemma ReadFlags(v: Values, m: Majority)
    requires PrintsMajority(v, m) && ATTEMPTS_MIN <= m.attempts <= ATTEMPTS_MAX
    ensures BoolOf(v, M(Enabled)) == Ok(m.enabled) && BoolOf(v, M(TriggerLimitEnabled)) == Ok(m.limitMode)
    ensures BoolOf(v, M(BufferEnabled)) == Ok(m.bufferOn) && BoolOf(v, M(RetryEnabled)) == Ok(m.retryOn)
    ensures AttemptsOf(v) == Ok(m.attempts)
  {
    ReadBool(v, M(Enabled), m.enabled);
    ReadBool(v, M(TriggerLimitEnabled), m.limitMode);
    ReadBool(v, M(BufferEnabled), m.bufferOn);
    ReadBool(v, M(RetryEnabled), m.retryOn);
    IntTextTight(m.attempts);
    StripTight(IntText(m.attempts));
    IntRoundTrip(m.attempts);
    assert v[M(RetryAttempts)] == IntText(m.attempts);
  }

  /** An old single-window value that the row still holds, read only when the list says nothing. */
  predicate LegacySpeaks(v: Values) {
    Strip(Get(v, M(LegacyWindow))) != ""
  }

  lemma ReadOffsets(v: Values, m: Majority)
    requires PrintsMajority(v, m) && Increasing(Offsets(m.windows)) && forall i | 0 <= i < |m.windows| :: m.windows[i].offset > 0
    requires m.windows != [] || !LegacySpeaks(v)
    ensures OffsetsOf(v) == Ok(Offsets(m.windows))
  {
    assert v[M(Windows)] == FlagTexts(m)[M(Windows)] == WindowsText(Offsets(m.windows));
    if m.windows != [] {
      WindowsRoundTrip(Offsets(m.windows));
      SortedSetFixed(Offsets(m.windows));
    } else {
      assert Offsets(m.windows) == [];
      StripTight("");
    }
  }

  /** A valid configuration, said by any row, is what the row builds exactly when no old window speaks for an empty list. */
  lemma MajorityRead(m: Majority, row: Values, minSize: Dec, tick: Dec)
    requires MajorityOk(m, minSize, tick) && PrintsMajority(row, m)
    ensures MajorityOf(row, minSize, tick) == Ok(m) <==> !(m.enabled && m.windows == [] && LegacySpeaks(row))
  {
    ReadFlags(row, m);
    if m.enabled {
      if m.windows == [] && LegacySpeaks(row) {
        LegacyReturns(row, m, minSize, tick);
      } else {
        ReadOffsets(row, m);
        WindowsRebuilt(row, m.windows, minSize, tick);
      }
    }
  }

  /** What can be built at all is exactly what is valid. */
  lemma MajorityIsBuiltExactly(m: Majority, minSize: Dec, tick: Dec)
    ensures (exists row :: MajorityOf(row, minSize, tick) == Ok(m)) <==> MajorityOk(m, minSize, tick)
  {
    if row :| MajorityOf(row, minSize, tick) == Ok(m) {
      BuiltMajority(row, minSize, tick);
    }
    if MajorityOk(m, minSize, tick) {
      var row := map[] + PrintMajority(m);
      PrintMajorityPrints(m, map[]);
      if M(LegacyWindow) in row { PrintMajorityKeys(m, M(LegacyWindow)); }
      StripTight("");
      MajorityRead(m, row, minSize, tick);
    }
  }

  /**
   Any MAJORITY configuration the builder produced, overrides, empty list and disabled engine
   included, said by any row through overrides or shared values, is rebuilt exactly when the row does
   not still speak of an old single window in place of an empty list.
   */
  lemma MajorityRoundTrip(source: Values, row: Values, minSize: Dec, tick: Dec)
    requires MajorityOf(source, minSize, tick).Ok? && PrintsMajority(row, MajorityOf(source, minSize, tick).value)
    ensures var m := MajorityOf(source, minSize, tick).value;
            MajorityOf(row, minSize, tick) == Ok(m) <==> !(m.enabled && m.windows == [] && LegacySpeaks(row))
  {
    BuiltMajority(source, minSize, tick);
    MajorityRead(MajorityOf(source, minSize, tick).value, row, minSize, tick);
  }

  /** One window for each offset read. */
  lemma BuiltWindows(v: Values, minSize: Dec, tick: Dec)
    requires MajorityOf(v, minSize, tick).Ok? && BoolOf(v, M(Enabled)) == Ok(true)
    ensures OffsetsOf(v).Ok? && |MajorityOf(v, minSize, tick).value.windows| == |OffsetsOf(v).value|
  {
    WindowsAreBuilt(BuilderFor(v, minSize, tick), OffsetsOf(v).value, |OffsetsOf(v).value|);
  }

  lemma LegacyIsOne(row: Values)
    requires Get(row, M(Windows)) == "" && LegacySpeaks(row)
    ensures OffsetsOf(row).Ok? ==> |OffsetsOf(row).value| == 1
  {
    StripTight("");
  }

  /** An emptied list hands over to the old single window: what is rebuilt has a window, or is refused. */
  lemma LegacyReturns(row: Values, m: Majority, minSize: Dec, tick: Dec)
    requires PrintsMajority(row, m) && m.windows == [] && m.enabled && LegacySpeaks(row) && BoolOf(row, M(Enabled)) == Ok(true)
    ensures MajorityOf(row, minSize, tick).Ok? ==> MajorityOf(row, minSize, tick).value.windows != []
  {
    assert row[M(Windows)] == FlagTexts(m)[M(Windows)] == WindowsText([]);
    LegacyIsOne(row);
    if MajorityOf(row, minSize, tick).Ok? { BuiltWindows(row, minSize, tick); }
  }

  // ── saving and loading ────────────────────────────────────────────────────

  datatype Loaded = Loaded(trading: Trading, majority: Majority)

  /** What the environment can supply of MAJORITY: its own keys, never an override or the old window. */
  ghost predicate IsEnvironment(env: Values) {
    forall k | k in env :: k.Shared? || (k.M? && !k.m.LegacyWindow?)
  }

  /** A stored row wins for every key it holds; the environment fills the MAJORITY keys it lacks. */
  function Load(envTrading: Values, envMajority: Values, stored: Values): Result<Loaded, ConfigError> {
    var merged := if |stored| > 0 then stored else envTrading;
    var trading :- TradingOf(merged);
    var majority :- MajorityOf(envMajority + merged, trading.minTradable, trading.tickSize);
    Ok(Loaded(trading, majority))
  }

  /** On the first start, with an empty table, the environment is the configuration; after it a stored key wins and the environment fills MAJORITY's others. */
  lemma LoadReads(envTrading: Values, envMajority: Values, stored: Values, read: Values)
    requires forall k :: Get(read, k) == if k in stored then stored[k] else if stored == map[] && k in envTrading then envTrading[k] else Get(envMajority, k)
    requires forall k :: k in read <==> k in stored || k in envMajority || (stored == map[] && k in envTrading)
    ensures var trading := TradingOf(if stored == map[] then envTrading else stored);
            Load(envTrading, envMajority, stored) ==
              if trading.Err? then Err(trading.error)
              else match MajorityOf(read, trading.value.minTradable, trading.value.tickSize) { case Ok(m) => Ok(Loaded(trading.value, m)) case Err(e) => Err(e) }
  {
    var merged := if stored == map[] then envTrading else stored;
    assert stored != map[] ==> |stored| > 0;
    assert read == envMajority + merged by {
      forall k
        ensures k in read <==> k in envMajority + merged
        ensures k in read ==> read[k] == (envMajority + merged)[k]
      {
        assert Get(read, k) == if k in merged then merged[k] else Get(envMajority, k);
      }
    }
  }

  /** Saving updates the keys it prints and leaves every other row of the table in place. */
  function Saved(rows: Values, s: Loaded): Values
    requires WindowsOk(s.trading.windows, s.trading.buffers)
  {
    rows + (PrintTrading(s.trading) + PrintMajority(s.majority))
  }

  lemma SavedPrintsTrading(rows: Values, s: Loaded)
    requires WindowsOk(s.trading.windows, s.trading.buffers)
    ensures PrintsTrading(Saved(rows, s), s.trading)
    ensures Saved(rows, s) != map[]
  {
    forall k: TradingKey
      ensures T(k) in Saved(rows, s) && Saved(rows, s)[T(k)] == TradingText(s.trading, k)
    {
      PrintedKey(s.trading, k);
      if T(k) in PrintMajority(s.majority) { PrintMajorityKeys(s.majority, T(k)); }
    }
    assert T(MaxTrades) in Saved(rows, s);
  }

  lemma SavedLegacy(env: Values, rows: Values, s: Loaded)
    requires WindowsOk(s.trading.windows, s.trading.buffers) && IsEnvironment(env)
    ensures Get(env + Saved(rows, s), M(LegacyWindow)) == Get(rows, M(LegacyWindow))
  {
    if M(LegacyWindow) in PrintMajority(s.majority) { PrintMajorityKeys(s.majority, M(LegacyWindow)); }
  }

  lemma MergeAssoc(a: Values, b: Values, c: Values)
    ensures a + (b + c) == (a + b) + c
  {
  }

  lemma SavedPrintsMajority(env: Values, rows: Values, s: Loaded)
    requires WindowsOk(s.trading.windows, s.trading.buffers) && Increasing(Offsets(s.majority.windows))
    ensures PrintsMajority(env + Saved(rows, s), s.majority)
  {
    var t, m := PrintTrading(s.trading), PrintMajority(s.majority);
    MergeAssoc(rows, t, m);
    MergeAssoc(env, rows + t, m);
    PrintMajorityPrints(s.majority, env + (rows + t));
  }

  lemma LoadStored(envTrading: Values, envMajority: Values, row: Values, t: Trading)
    requires row != map[] && TradingOf(row) == Ok(t)
    ensures Load(envTrading, envMajority, row) ==
              match MajorityOf(envMajority + row, t.minTradable, t.tickSize) { case Ok(m) => Ok(Loaded(t, m)) case Err(e) => Err(e) }
  {
    assert |row| > 0;
  }

  /** Only that one case is lost on the way. */
  predicate Emptied(m: Majority, rows: Values) {
    m.enabled && m.windows == [] && LegacySpeaks(rows)
  }

  /**
   Saved over whatever rows were there and loaded under whatever environment, every configuration
   the builders can produce comes back equal, with one exception, and exactly that one: MAJORITY on
   with no windows, over rows that still hold the old single-window value.
   */
  lemma SavedComesBack(v: Values, u: Values, envTrading: Values, envMajority: Values, rows: Values, s: Loaded)
    requires TradingOf(v) == Ok(s.trading) && IsEnvironment(envMajority)
    requires MajorityOf(u, s.trading.minTradable, s.trading.tickSize) == Ok(s.majority)
    ensures Load(envTrading, envMajority, Saved(rows, s)) == Ok(s) <==> !Emptied(s.majority, rows)
  {
    var row := Saved(rows, s);
    BuiltMajority(u, s.trading.minTradable, s.trading.tickSize);
    SavedPrintsTrading(rows, s);
    TradingRoundTrip(v, row);
    SavedPrintsMajority(envMajority, rows, s);
    MajorityRoundTrip(u, envMajority + row, s.trading.minTradable, s.trading.tickSize);
    SavedLegacy(envMajority, rows, s);
    LoadStored(envTrading, envMajority, row, s.trading);
  }

  /** A configuration file that switches MAJORITY on and lists no window. */
  function NoWindows(): Majority {
    Majority(true, [], false, false, false, ATTEMPTS_DEFAULT)
  }

  lemma NoWindowsIsBuilt(minSize: Dec, tick: Dec)
    ensures MajorityOf(PrintMajority(NoWindows()), minSize, tick) == Ok(NoWindows())
  {
    var m := NoWindows();
    var row := map[] + PrintMajority(m);
    assert row == PrintMajority(m);
    PrintMajorityPrints(m, map[]);
    ReadFlags(row, m);
    if M(LegacyWindow) in row { PrintMajorityKeys(m, M(LegacyWindow)); }
    StripTight("");
    ReadOffsets(row, m);
  }

  /**
   The exception is met: such a file, loaded over a table that still holds any old single window, is
   accepted and saved, and what the next start loads is something else.
   */
  lemma EmptiedIsReached(v: Values, envTrading: Values, envMajority: Values, t: Trading, window: nat)
    requires TradingOf(v) == Ok(t) && IsEnvironment(envMajority)
    ensures var rows, s := map[M(LegacyWindow) := NatText(window)], Loaded(t, NoWindows());
            && MajorityOf(PrintMajority(s.majority), t.minTradable, t.tickSize) == Ok(s.majority)
            && Emptied(s.majority, rows)
            && Load(envTrading, envMajority, Saved(rows, s)) != Ok(s)
  {
    var rows, s := map[M(LegacyWindow) := NatText(window)], Loaded(t, NoWindows());
    NoWindowsIsBuilt(t.minTradable, t.tickSize);
    IntTextTight(window);
    StripTight(NatText(window));
    SavedComesBack(v, PrintMajority(s.majority), envTrading, envMajority, rows, s);
  }

  // ── names of the settings themselves ──────────────────────────────────────

  function FieldName(f: Field): string {
    match f
    case Buffer => "buffer"
    case TriggerPrice => "trigger_price"
    case TargetPrice => "target_limit_price"
    case Shares => "shares"
    case BandMin => "entry_price_min"
    case BandMax => "entry_price_max"
  }

  const OVERRIDE_PREFIX: string := "majority_w_"

  function OverrideName(window: nat, f: Field): string {
    OVERRIDE_PREFIX + (NatText(window) + "_" + FieldName(f))
  }

  /** Two overrides share a name only when they are the same window's same field. */
  lemma OverrideNamesApart(w: nat, f: Field, u: nat, g: Field)
    requires OverrideName(w, f) == OverrideName(u, g)
    ensures w == u && f == g
  {
    var a, b := NatText(w) + "_" + FieldName(f), NatText(u) + "_" + FieldName(g);
    assert OverrideName(w, f)[|OVERRIDE_PREFIX|..] == a && OverrideName(u, g)[|OVERRIDE_PREFIX|..] == b;
    CutAtFirst(NatText(w), FieldName(f), '_');
    CutAtFirst(NatText(u), FieldName(g), '_');
    NatTextInjective(w, u);
  }

  // ── the building loops ────────────────────────────────────────────────────

  lemma {:induction false} BadWindow(build: Builder, offsets: seq<int>, k: nat, n: nat)
    requires k <= n <= |offsets| && WindowsUpTo(build, offsets, k).Err?
    ensures WindowsUpTo(build, offsets, n) == Err(InvariantViolated)
    decreases n
  {
    assert WindowsUpTo(build, offsets, k).error.InvariantViolated?;
    if k < n {
      BadWindow(build, offsets, k, n - 1);
    }
  }

  method BuildAll(build: Builder, offsets: seq<int>) returns (r: Result<seq<MajorityWindow>, ConfigError>)
    ensures r == WindowsUpTo(build, offsets, |offsets|)
  {
    var windows: seq<MajorityWindow> := [];
    for k := 0 to |offsets|
      invariant WindowsUpTo(build, offsets, k) == Ok(windows)
    {
      var window := build(offsets[k]);
      if window.Err? {
        BadWindow(build, offsets, k + 1, |offsets|);
        return Err(InvariantViolated);
      }
      windows := windows + [window.value];
    }
    return Ok(windows);
  }

  method MergeInTurn(parts: seq<Values>) returns (out: Values)
    ensures out == MergeAll(parts, |parts|)
  {
    out := map[];
    for k := 0 to |parts|
      invariant out == MergeAll(parts, k)
    {
      out := out + parts[k];
    }
  }

  method AsStorageDict(m: Majority) returns (out: Values)
    ensures out == PrintMajority(m)
  {
    var own := MergeInTurn(AllWindowTexts(m.windows));
    out := FlagTexts(m) + (if m.windows == [] then map[] else SharedTexts(m.windows[0])) + own;
  }
}
