module Majority {
  // The MAJORITY decision: fire, read afresh in a later tick, lock a side, pass the gates, persist, send.

  import Orders
  import opened Backend
  import Money
  import Split
  import opened Submit
  import opened Trigger
  import opened Watches
  import opened Wrappers
  import Risk

  const MAJORITY_ENGINE: string := "MAJORITY"
  const FRESH_MAX_AGE: real := 2.0
  const SHORT_WINDOW: nat := 30

  datatype Window = Window(
    offset: nat,
    buffer: real,
    triggerPrice: real,
    target: real,
    shares: real,
    bandMin: real,
    bandMax: real)

  /** `limitMode` is the trigger/target switch, `bufferOn` the buffer switch. */
  datatype Config = Config(tradable: bool, limitMode: bool, bufferOn: bool, windows: seq<Window>, tick: real) {
    predicate Valid() {
      && tick > 0.0
      && (forall i | 0 <= i < |windows| :: windows[i].shares > 0.0)
      && (forall i, j | 0 <= i < j < |windows| :: windows[i].offset != windows[j].offset)
    }
  }

  datatype Market = Market(
    slug: string,
    closeTs: int,
    phase: Risk.Phase,
    ptb: Option<real>,
    lastBtc: Option<real>,
    twap: Option<real>,
    held: set<Orders.Direction>)

  datatype Health = Health(
    tradingEnabled: bool,
    spec: Risk.SpecStatus,
    armed: bool,
    paused: bool,
    openPositions: nat,
    dailyLoss: real,
    lossStreak: nat,
    feedBlocked: bool,
    driftCritical: bool,
    healthy: bool,
    supervisorReady: bool,
    walletConnected: bool,
    orphans: seq<string>,
    balance: Option<real>)

  datatype Quote = Quote(up: Option<real>, down: Option<real>)

  /** What one tick meets: the clock, the market, the process, two book reads, the venue's answers. */
  datatype Moment = Moment(now: real, market: Market, health: Health, triggerQuote: Quote, quote: Quote, answers: nat -> Answers)

  // ── when a sequence starts ────────────────────────────────────────────────

  datatype EntryMode = Direct | BtcTrigger | TwapSupport

  function ModeFor(win: Window, bufferOn: bool): EntryMode {
    if !bufferOn then Direct
    else if win.buffer <= 0.0 then (if win.offset > SHORT_WINDOW then Direct else TwapSupport)
    else if win.offset > SHORT_WINDOW then BtcTrigger
    else TwapSupport
  }

  function Distance(a: real, b: real): real {
    if a >= b then a - b else b - a
  }

  function BufferGate(cfg: Config, w: Watch, win: Window, m: Moment): Watch {
    match ModeFor(win, cfg.bufferOn)
    case Direct => WithFire(w, m.now, None, None)
    case BtcTrigger =>
      (match m.market.lastBtc
       case None => Awaited(w)
       case Some(spot) =>
         var levels := if w.levels.Some? then w.levels.value else Levels(spot, spot + win.buffer, spot - win.buffer);
         var v := w.(levels := Some(levels));
         if spot >= levels.upper then WithFire(v, m.now, Some(levels.upper), Some(spot))
         else if spot <= levels.lower then WithFire(v, m.now, Some(levels.lower), Some(spot))
         else Awaited(v))
    case TwapSupport =>
      if m.market.ptb.None? || m.market.twap.None? then Awaited(w)
      else if Distance(m.market.twap.value, m.market.ptb.value) >= win.buffer then WithFire(w, m.now, None, None)
      else Awaited(w)
  }

  function TriggerBook(m: Moment): Book {
    Book(m.triggerQuote.up, m.triggerQuote.down, m.now, true)
  }

  /** The price trigger first, latched; then the buffer condition. */
  function EvaluateEntry(cfg: Config, w: Watch, win: Window, m: Moment): Watch {
    if cfg.limitMode && !w.priceReached then
      if IsTriggered(TriggerBook(m), win.triggerPrice) then BufferGate(cfg, w.(priceReached := true), win, m)
      else Awaited(w)
    else BufferGate(cfg, w, win, m)
  }

  // ── which side ────────────────────────────────────────────────────────────

  function FreshBook(w: Watch, m: Moment): Book {
    Book(m.quote.up, m.quote.down, m.now, w.triggeredAt.Some? && m.now - w.triggeredAt.value <= FRESH_MAX_AGE)
  }

  function ReadAndDecide(w: Watch, m: Moment): Watch {
    var b := FreshBook(w, m);
    var v := Determine(b);
    var d := WithDetermination(WithReading(w), v, b);
    if v.direction.Some? && CanSelect(d, v) then WithSide(d, v, b, m.now) else WithoutTrade(d)
  }

  // ── what is proposed ──────────────────────────────────────────────────────

  function KeyOf(slug: string, offset: nat): IntentKey {
    IntentKey(MAJORITY_ENGINE, slug, offset)
  }

  /** With the switch off: the decision read's bid for the side, on the grid and in the band, or nothing. */
  function LivePrice(cfg: Config, w: Watch, win: Window, d: Orders.Direction): Option<real>
    requires cfg.tick > 0.0
  {
    if w.decision.None? || !w.decision.value.Usable() then None
    else
      var bid := w.decision.value.Bid(d);
      if bid.None? then None
      else
        var price := Money.FloorTo(bid.value, cfg.tick);
        if price <= 0.0 || price < win.bandMin || price > win.bandMax then None else Some(price)
  }

  function Proposed(cfg: Config, w: Watch, win: Window, d: Orders.Direction): Option<real>
    requires cfg.tick > 0.0
  {
    if cfg.limitMode then Some(win.target) else LivePrice(cfg, w, win, d)
  }

  function IntentFor(w: Watch, win: Window, m: Moment, d: Orders.Direction, price: real): Intent {
    Intent(m.market.slug, win.offset, d, if w.firedLevel.Some? then w.firedLevel.value else 0.0, m.now,
           if m.market.ptb.Some? then m.market.ptb.value else 0.0, win.buffer, price, win.shares, MAJORITY_ENGINE, m.market.closeTs)
  }

  function ContextFor(i: Intent, win: Window, m: Moment, onRecord: bool): Risk.Context {
    var h := m.health;
    Risk.Context(
      h.tradingEnabled, h.spec, h.paused, h.armed, m.market.phase, true, m.market.ptb, true, onRecord,
      0, 0, 1, i.direction, m.market.held, false, h.openPositions, 999,
      i.limitPrice, i.size, win.bandMin, win.bandMax, win.shares,
      h.dailyLoss, h.lossStreak, 0.0, 0,
      h.feedBlocked, h.driftCritical, h.healthy, h.supervisorReady, h.walletConnected, h.orphans, h.balance)
  }

  datatype Check =
    | MarketMismatch | WindowMismatch | EngineMismatch | NoDecision | NoLockedSide | SideMismatch
    | NoSideBid | PriceInvalid | PriceOffGrid | QuantityInvalid | RiskDenied | DecisionStale
    | AlreadySubmitted | IntentOnRecord

  /** The final boundary: the first check that fails, or None. It refuses; it never corrects. */
  function DirectionGate(cfg: Config, w: Watch, win: Window, m: Moment, i: Intent, v: Risk.Verdict, submitted: bool, onRecord: bool): Option<Check>
    requires cfg.tick > 0.0
  {
    if i.slug != m.market.slug then Some(MarketMismatch)
    else if i.offset != win.offset then Some(WindowMismatch)
    else if i.strategy != MAJORITY_ENGINE then Some(EngineMismatch)
    else if w.verdict.None? || w.decision.None? then Some(NoDecision)
    else if w.side.None? then Some(NoLockedSide)
    else if i.direction != w.side.value then Some(SideMismatch)
    else if !w.decision.value.Complete() || w.decision.value.Bid(i.direction).None? then Some(NoSideBid)
    else if i.limitPrice <= 0.0 then Some(PriceInvalid)
    else if Money.FloorTo(i.limitPrice, cfg.tick) != i.limitPrice then Some(PriceOffGrid)
    else if i.size <= 0.0 || i.size != win.shares then Some(QuantityInvalid)
    else if v.Denied? then Some(RiskDenied)
    else if !w.decision.value.recent then Some(DecisionStale)
    else if submitted then Some(AlreadySubmitted)
    else if onRecord then Some(IntentOnRecord)
    else None
  }

  /** The intent a side-locked window may act on now, when every gate lets it through. */
  function Approved(cfg: Config, w: Watch, win: Window, m: Moment, world: World): Option<Intent>
    requires cfg.tick > 0.0
  {
    if w.side.None? then None
    else match Proposed(cfg, w, win, w.side.value)
      case None => None
      case Some(price) =>
        var i := IntentFor(w, win, m, w.side.value, price);
        var onRecord := KeyOf(m.market.slug, win.offset) in world.intents;
        var v := Risk.Judge(ContextFor(i, win, m, onRecord));
        if v.Denied? || DirectionGate(cfg, w, win, m, i, v, false, onRecord).Some? then None else Some(i)
  }

  // ── one tick of one window ────────────────────────────────────────────────

  /** What one tick leaves of the window, whether the window is spent, and what it did. */
  datatype Ticked = Ticked(watch: Watch, submitted: bool, effects: seq<Effect>)

  function Sending(desk: Desk, w: Watch, m: Moment, i: Intent, world: World): Ticked {
    var save := SaveIntent(KeyOf(i.slug, i.offset), i);
    var w1 := WithIntent(w);
    match SubmitEffects(Apply(world, save), desk, i, 1, m.market.phase.Active?, m.answers)
    case Err(MarketNotActive) => Ticked(WithoutTrade(w1), true, [save])
    case Err(NoLadder(_)) => Ticked(w1, true, [save])
    case Ok(es) =>
      var placed := Plan(desk, i, 1).Ok? && Plan(desk, i, 1).value != [];
      Ticked(if placed then WithStage(w1, Sent) else WithoutTrade(w1), true, [save] + es)
  }

  function Acting(cfg: Config, desk: Desk, w: Watch, win: Window, m: Moment, world: World): Ticked
    requires cfg.tick > 0.0
  {
    match Approved(cfg, w, win, m, world)
    case None => Ticked(WithoutTrade(w), false, [])
    case Some(i) => Sending(desk, w, m, i, world)
  }

  predicate Dormant(w: Watch, submitted: bool, win: Window, m: Moment) {
    IsOver(w.stage) || submitted || m.now < (m.market.closeTs - win.offset) as real
  }

  function TickOne(cfg: Config, desk: Desk, w: Watch, submitted: bool, win: Window, m: Moment, world: World): Ticked
    requires cfg.tick > 0.0
  {
    if Dormant(w, submitted, win, m) then Ticked(w, submitted, [])
    else
      var open := Opened(w);
      if open.triggeredAt.None? then Ticked(EvaluateEntry(cfg, open, win, m), false, [])
      else
        var read := if open.stage.Fired? then ReadAndDecide(open, m) else open;
        if read.stage.SideSelected? then Acting(cfg, desk, read, win, m, world) else Ticked(read, false, [])
  }

  // ── when exactly an entry fires ───────────────────────────────────────────

  /** The price trigger was reached before, or some side of this complete quote bids it now. */
  predicate PriceMet(w: Watch, win: Window, m: Moment) {
    w.priceReached
    || (m.triggerQuote.up.Some? && m.triggerQuote.down.Some?
        && (m.triggerQuote.up.value >= win.triggerPrice || m.triggerQuote.down.value >= win.triggerPrice))
  }

  /** The market has moved by the buffer: from the captured reference in a long window, from the opening price in a short one. */
  predicate BufferMet(w: Watch, win: Window, m: Moment) {
    if win.offset > 30 then
      win.buffer <= 0.0
      || (w.levels.Some? && m.market.lastBtc.Some? && Distance(m.market.lastBtc.value, w.levels.value.reference) >= win.buffer)
    else
      m.market.ptb.Some? && m.market.twap.Some? && Distance(m.market.twap.value, m.market.ptb.value) >= win.buffer
  }

  /** Levels captured around one reference. */
  predicate Centred(w: Watch, win: Window) {
    w.levels.Some? ==> w.levels.value == Levels(w.levels.value.reference, w.levels.value.reference + win.buffer, w.levels.value.reference - win.buffer)
  }

  /** This tick takes the reference: the first spot price seen in a long window whose price condition is met. */
  predicate Captures(cfg: Config, w: Watch, win: Window, m: Moment) {
    && cfg.bufferOn && win.offset > 30 && win.buffer > 0.0 && m.market.lastBtc.Some?
    && (cfg.limitMode ==> PriceMet(w, win, m))
    && w.levels.None?
  }

  /** A window fires exactly when every switched-on condition is met; what it captures stays centred. */
  lemma FiresExactlyWhenMet(cfg: Config, w: Watch, win: Window, m: Moment)
    requires w.triggeredAt.None? && Centred(w, win)
    ensures EvaluateEntry(cfg, w, win, m).triggeredAt.Some? <==>
              (cfg.limitMode ==> PriceMet(w, win, m)) && (cfg.bufferOn ==> BufferMet(w, win, m))
    ensures Centred(EvaluateEntry(cfg, w, win, m), win)
    ensures w.levels.Some? ==> EvaluateEntry(cfg, w, win, m).levels == w.levels
  {
    TriggeredWhenReached(TriggerBook(m), win.triggerPrice);
  }

  /**
   What one evaluation records: the reference is the spot price it was taken at, and is taken once; the
   price trigger is latched; and firing carries the clock, and in a long window the level the spot reached.
   */
  lemma EntryRecords(cfg: Config, w: Watch, win: Window, m: Moment)
    requires w.triggeredAt.None? && Centred(w, win)
    ensures var e := EvaluateEntry(cfg, w, win, m);
            && e.levels == (if Captures(cfg, w, win, m)
                            then Some(Levels(m.market.lastBtc.value, m.market.lastBtc.value + win.buffer, m.market.lastBtc.value - win.buffer))
                            else w.levels)
            && (e.priceReached <==> w.priceReached || (cfg.limitMode && PriceMet(w, win, m)))
            && (e.triggeredAt.Some? ==>
                  && e.triggeredAt == Some(m.now) && e.stage.Fired?
                  && if cfg.bufferOn && win.offset > 30 && win.buffer > 0.0 then
                       && e.firedSpot == m.market.lastBtc && m.market.lastBtc.Some? && w.levels.Some?
                       && e.firedLevel == Some(if m.market.lastBtc.value > w.levels.value.reference
                                               then w.levels.value.reference + win.buffer else w.levels.value.reference - win.buffer)
                     else e.firedSpot.None? && e.firedLevel.None?)
            && (e.triggeredAt.None? ==>
                  && e.firedLevel == w.firedLevel && e.firedSpot == w.firedSpot
                  && e.stage == if w.stage.WindowOpen? then WaitingTrigger else w.stage)
            && e.side == w.side && e.decision == w.decision && e.verdict == w.verdict && e.sideAt == w.sideAt
  {
    TriggeredWhenReached(TriggerBook(m), win.triggerPrice);
  }

  // ── what a tick that acts has established ─────────────────────────────────

  /** The price the switch names: the configured target, or the winning bid floored to the tick. */
  function Quoted(cfg: Config, win: Window, b: Book, d: Orders.Direction): real
    requires cfg.tick > 0.0 && StrictWinner(b, d)
  {
    if cfg.limitMode then win.target else Money.FloorTo(b.Bid(d).value, cfg.tick)
  }

  const MAX_POSITIONS: nat := 999

  /** The process and the market let this intent through. */
  ghost predicate Cleared(i: Intent, market: Market, health: Health) {
    && health.spec == Risk.Verified && health.tradingEnabled && !health.paused && health.armed
    && market.phase == Risk.Active && i.direction.Opposite() !in market.held
    && health.openPositions < MAX_POSITIONS
    && !health.feedBlocked && !health.driftCritical && health.healthy && health.supervisorReady && health.walletConnected
    && health.orphans == []
    && (health.balance.Some? ==> i.limitPrice * i.size <= health.balance.value)
  }

  /** An intent that may be acted on: cleared, on the grid and in the band, of the window's size. */
  ghost predicate Sanctioned(cfg: Config, win: Window, i: Intent, market: Market, health: Health) {
    && i.slug == market.slug && i.closeTs == market.closeTs
    && i.offset == win.offset && i.buffer == win.buffer
    && i.limitPrice > 0.0 && Money.OnGrid(i.limitPrice, cfg.tick) && win.bandMin <= i.limitPrice <= win.bandMax
    && i.size == win.shares > 0.0
    && i.strategy == MAJORITY_ENGINE
    && Cleared(i, market, health)
  }

  /** What the gates are asked about an intent of this window. */
  lemma OpenForIntent(i: Intent, win: Window, m: Moment, onRecord: bool)
    requires i.size == win.shares
    ensures Risk.Open(ContextFor(i, win, m, onRecord)) <==>
              !onRecord && win.bandMin <= i.limitPrice <= win.bandMax && win.shares > 0.0 && Cleared(i, m.market, m.health)
  {
  }

  /** The gates let an intent of this window through exactly when none is on record and it is cleared, banded and of a positive size. */
  lemma GatesAllowExactly(i: Intent, win: Window, m: Moment, onRecord: bool, c: Risk.Context)
    requires i.size == win.shares && c == ContextFor(i, win, m, onRecord)
    ensures Risk.Judge(c).Allowed? <==>
              !onRecord && win.bandMin <= i.limitPrice <= win.bandMax && win.shares > 0.0 && Cleared(i, m.market, m.health)
  {
    OpenForIntent(i, win, m, onRecord);
    Risk.JudgedOpen(c);
  }

  /**
   With a side locked from a fresh complete read, the intent is the one of that side at the quoted
   price, and it is approved exactly when the window has none on record and it is sanctioned.
   */
  lemma ApprovedExactly(cfg: Config, w: Watch, win: Window, m: Moment, world: World, b: Book, d: Orders.Direction)
    requires cfg.tick > 0.0 && StrictWinner(b, d)
    requires w.side == Some(d) && w.decision == Some(b) && w.verdict.Some?
    ensures var i := IntentFor(w, win, m, d, Quoted(cfg, win, b, d));
            Approved(cfg, w, win, m, world) ==
              if KeyOf(m.market.slug, win.offset) !in world.intents && Sanctioned(cfg, win, i, m.market, m.health) then Some(i) else None
  {
    var price := Quoted(cfg, win, b, d);
    var i, onRecord := IntentFor(w, win, m, d, price), KeyOf(m.market.slug, win.offset) in world.intents;
    GatesAllowExactly(i, win, m, onRecord, ContextFor(i, win, m, onRecord));
    Money.FixedIffOnGrid(price, cfg.tick);
  }

  /** The boundary lets an intent pass exactly when all of it agrees: market, window, engine, side, price, size, gates, book and record. */
  lemma BoundaryPassesExactly(cfg: Config, w: Watch, win: Window, m: Moment, i: Intent, v: Risk.Verdict, submitted: bool, onRecord: bool)
    requires cfg.tick > 0.0
    ensures DirectionGate(cfg, w, win, m, i, v, submitted, onRecord) == None <==>
              && i.slug == m.market.slug && i.offset == win.offset && i.strategy == MAJORITY_ENGINE
              && w.verdict != None && w.side == Some(i.direction)
              && w.decision != None && w.decision.value.up != None && w.decision.value.down != None && w.decision.value.recent
              && 0.0 < i.limitPrice && Money.OnGrid(i.limitPrice, cfg.tick)
              && 0.0 < i.size == win.shares
              && v == Risk.Allowed && !submitted && !onRecord
  {
    Money.FixedIffOnGrid(i.limitPrice, cfg.tick);
  }

  /** With the switch off the price is the decision read's bid for the side, floored to the tick, when that is positive and in the band. */
  lemma LivePriceIs(cfg: Config, w: Watch, win: Window, d: Orders.Direction, b: Book, bid: real)
    requires cfg.tick > 0.0 && w.decision == Some(b) && b.recent && b.up.Some? && b.down.Some?
    requires bid == match d { case Up => b.up.value case Down => b.down.value }
    ensures var price := Money.FloorTo(bid, cfg.tick);
            LivePrice(cfg, w, win, d) == if 0.0 < price && win.bandMin <= price <= win.bandMax then Some(price) else None
  {
  }

  lemma ApprovedIsSanctioned(cfg: Config, w: Watch, win: Window, m: Moment, world: World)
    requires cfg.tick > 0.0 && Approved(cfg, w, win, m, world).Some?
    ensures var i := Approved(cfg, w, win, m, world).value;
            && Sanctioned(cfg, win, i, m.market, m.health)
            && KeyOf(i.slug, i.offset) !in world.intents && i.slug == m.market.slug
            && w.side == Some(i.direction) && m.market.phase.Active?
  {
    var i := Approved(cfg, w, win, m, world).value;
    var onRecord := KeyOf(m.market.slug, win.offset) in world.intents;
    GatesAllowExactly(i, win, m, onRecord, ContextFor(i, win, m, onRecord));
    Money.FixedIffOnGrid(i.limitPrice, cfg.tick);
  }

  /** Between ticks an unspent window holds no locked side it could still act on. */
  predicate AtRest(w: Watch, submitted: bool) {
    && (w.stage.SideSelected? ==> submitted)
    && (w.stage.Fired? ==> w.triggeredAt.Some? && w.side.None?)
    && (w.triggeredAt.None? && !submitted ==> w.side.None?)
  }

  /** Sending saves the intent first, spends the window, and leaves its side locked. */
  lemma SendingLaws(desk: Desk, w: Watch, m: Moment, i: Intent, world: World)
    requires w.stage.SideSelected?
    ensures var t := Sending(desk, w, m, i, world);
            && !t.watch.stage.Fired? && !t.watch.stage.SideSelected?
            && t.watch.triggeredAt == w.triggeredAt && t.watch.side == w.side
            && t.submitted && t.effects != [] && t.effects[0] == SaveIntent(KeyOf(i.slug, i.offset), i)
  {
  }

  lemma ActingLaws(cfg: Config, desk: Desk, w: Watch, win: Window, m: Moment, world: World)
    requires cfg.tick > 0.0 && w.stage.SideSelected?
    ensures var t := Acting(cfg, desk, w, win, m, world);
            && !t.watch.stage.Fired? && !t.watch.stage.SideSelected?
            && t.watch.triggeredAt == w.triggeredAt && t.watch.side == w.side
            && (t.submitted <==> t.effects != [])
  {
    match Approved(cfg, w, win, m, world)
    case None =>
    case Some(i) => SendingLaws(desk, w, m, i, world);
  }

  /** In an active market the rest of a sending is one submission of the whole intent; the window is SENT when that has an order, and otherwise ends without a trade. */
  lemma SendingDoes(desk: Desk, w: Watch, m: Moment, i: Intent, world: World)
    requires w.stage.SideSelected? && m.market.phase == Risk.Active && desk.step > 0.0 && desk.minimum > 0.0 && i.size > 0.0
    ensures var t, ladder := Sending(desk, w, m, i, world), Split.Ladder(i.size, 1, desk.minimum, desk.step);
            var submission := SubmitEffects(Apply(world, SaveIntent(KeyOf(i.slug, i.offset), i)), desk, i, 1, true, m.answers);
            && ladder.Ok? && submission.Ok?
            && t.effects == [SaveIntent(KeyOf(i.slug, i.offset), i)] + submission.value
            && t.watch.stage == if |ladder.value| == 0 then NoTrade else Watches.Sent
  {
  }

  /** The clock has reached the window: its offset or less remains to the close. */
  predicate HasOpened(win: Window, m: Moment) {
    m.now >= (m.market.closeTs - win.offset) as real
  }

  /** The sequence came to an end: traded out, refused, retracted, never sent, or given up. */
  predicate Finished(s: Stage) {
    s in {Completed, NoTrade, Retracted, NeverSent, Refused}
  }

  /**
   A window is shut until the clock reaches it, and for good once it is spent or finished: then a tick
   changes nothing. In an open one that has not fired, it fires exactly when its conditions are met, and
   does nothing else; one that has fired is read at once.
   */
  lemma ActsOnlyWhileOpen(cfg: Config, desk: Desk, w: Watch, submitted: bool, win: Window, m: Moment, world: World)
    requires cfg.tick > 0.0 && Centred(w, win)
    ensures var t := TickOne(cfg, desk, w, submitted, win, m, world);
            && (!HasOpened(win, m) || submitted || Finished(w.stage) ==> t == Ticked(w, submitted, []))
            && (HasOpened(win, m) && !submitted && !Finished(w.stage) ==>
                  && (w.triggeredAt.None? ==>
                        && t.effects == [] && !t.submitted
                        && (t.watch.triggeredAt == Some(m.now) <==>
                              (cfg.limitMode ==> PriceMet(w, win, m)) && (cfg.bufferOn ==> BufferMet(w, win, m)))
                        && (t.watch.triggeredAt.None? ==> t.watch.stage == if w.stage.WaitingWindow? || w.stage.WindowOpen? then WaitingTrigger else w.stage))
                  && (w.stage.Fired? && w.triggeredAt.Some? ==> !t.watch.stage.Fired?))
  {
    if HasOpened(win, m) && !submitted && !Finished(w.stage) {
      if w.triggeredAt.None? {
        FiresExactlyWhenMet(cfg, Opened(w), win, m);
        EntryRecords(cfg, Opened(w), win, m);
      } else if w.stage.Fired? {
        var read := ReadAndDecide(w, m);
        if read.stage.SideSelected? { ActingLaws(cfg, desk, read, win, m, world); }
      }
    }
  }

  /** The complete read a tick takes. */
  function ReadOf(m: Moment): Book {
    Book(m.quote.up, m.quote.down, m.now, true)
  }

  /**
   The read that follows a firing: within two seconds, the strict winner's side is locked, with the clock
   and the book it was read from; without one, or later, the window ends without a trade.
   */
  lemma ReadDecides(w: Watch, m: Moment, d: Orders.Direction)
    requires w.stage.Fired? && w.triggeredAt.Some? && w.side.None?
    ensures var r, inTime := ReadAndDecide(w, m), m.now - w.triggeredAt.value <= 2.0;
            && (r.side == Some(d) <==> inTime && StrictWinner(ReadOf(m), d))
            && (r.stage.SideSelected? <==> r.side.Some?)
            && (r.side.Some? ==> r.sideAt == Some(m.now))
            && (r.side.None? ==> r.stage.NoTrade?)
            && r.decision == Some(ReadOf(m).(recent := inTime)) && r.verdict.Some?
            && r.triggeredAt == w.triggeredAt
  {
    DeterminesStrictWinner(FreshBook(w, m), d);
    DeterminesStrictWinner(FreshBook(w, m), Orders.Up);
    DeterminesStrictWinner(FreshBook(w, m), Orders.Down);
  }

  /** The intent this window would save for a side. */
  function IntentOn(cfg: Config, w: Watch, win: Window, m: Moment, d: Orders.Direction): Intent
    requires cfg.tick > 0.0 && StrictWinner(ReadOf(m), d)
  {
    Intent(m.market.slug, win.offset, d, if w.firedLevel.None? then 0.0 else w.firedLevel.value, m.now,
           if m.market.ptb.None? then 0.0 else m.market.ptb.value, win.buffer, Quoted(cfg, win, ReadOf(m), d), win.shares,
           MAJORITY_ENGINE, m.market.closeTs)
  }

  /** Everything there must be for a tick to act on a side. */
  ghost predicate MayAct(cfg: Config, w: Watch, submitted: bool, win: Window, m: Moment, world: World, d: Orders.Direction)
    requires cfg.tick > 0.0
  {
    && HasOpened(win, m) && !submitted
    && w.stage.Fired? && w.triggeredAt.Some? && m.now - w.triggeredAt.value <= 2.0
    && StrictWinner(ReadOf(m), d)
    && KeyOf(m.market.slug, win.offset) !in world.intents
    && Sanctioned(cfg, win, IntentOn(cfg, w, win, m, d), m.market, m.health)
  }

  /** A tick of an open unspent window that fired, when its read has a strict winner and is in time. */
  lemma ActsOnSide(cfg: Config, desk: Desk, w: Watch, win: Window, m: Moment, world: World, d: Orders.Direction)
    requires cfg.tick > 0.0 && AtRest(w, false) && HasOpened(win, m)
    requires w.stage.Fired? && m.now - w.triggeredAt.value <= 2.0 && StrictWinner(ReadOf(m), d)
    ensures var t, i := TickOne(cfg, desk, w, false, win, m, world), IntentOn(cfg, w, win, m, d);
            if KeyOf(m.market.slug, win.offset) !in world.intents && Sanctioned(cfg, win, i, m.market, m.health)
            then t == Sending(desk, ReadAndDecide(w, m), m, i, world) && ReadAndDecide(w, m).stage.SideSelected?
                 && ReadAndDecide(w, m).side == Some(d)
            else t.effects == []
  {
    var read := ReadAndDecide(w, m);
    ReadDecides(w, m, d);
    ApprovedExactly(cfg, read, win, m, world, ReadOf(m), d);
    assert IntentFor(read, win, m, d, Quoted(cfg, win, ReadOf(m), d)) == IntentOn(cfg, w, win, m, d);
  }

  /** Short of all that a tick does nothing. */
  lemma IdleOtherwise(cfg: Config, desk: Desk, w: Watch, submitted: bool, win: Window, m: Moment, world: World) returns (d: Orders.Direction)
    requires cfg.tick > 0.0 && AtRest(w, submitted) && TickOne(cfg, desk, w, submitted, win, m, world).effects != []
    ensures HasOpened(win, m) && !submitted && w.stage.Fired? && m.now - w.triggeredAt.value <= 2.0 && StrictWinner(ReadOf(m), d)
  {
    ReadDecides(w, m, Orders.Up);
    ReadDecides(w, m, Orders.Down);
    d := ReadAndDecide(w, m).side.value;
  }

  /**
   A tick does something exactly when the window is open and unspent, fired in an earlier tick at most two
   seconds before, and the complete read this tick takes has a strict winner whose intent is sanctioned on
   a window that has none; and that intent is the first thing it saves.
   */
  lemma ActsExactlyWhen(cfg: Config, desk: Desk, w: Watch, submitted: bool, win: Window, m: Moment, world: World)
    requires cfg.tick > 0.0 && AtRest(w, submitted)
    ensures var t := TickOne(cfg, desk, w, submitted, win, m, world);
            && (t.effects != [] <==> exists d :: MayAct(cfg, w, submitted, win, m, world, d))
            && forall d | MayAct(cfg, w, submitted, win, m, world, d) ::
                 && t.effects[0] == SaveIntent(KeyOf(m.market.slug, win.offset), IntentOn(cfg, w, win, m, d))
                 && t.submitted && t.watch.side == Some(d)
  {
    var t := TickOne(cfg, desk, w, submitted, win, m, world);
    forall d | MayAct(cfg, w, submitted, win, m, world, d)
      ensures t.effects != [] && t.effects[0] == SaveIntent(KeyOf(m.market.slug, win.offset), IntentOn(cfg, w, win, m, d))
      ensures t.submitted && t.watch.side == Some(d)
    {
      ActsOnSide(cfg, desk, w, win, m, world, d);
      SendingLaws(desk, ReadAndDecide(w, m), m, IntentOn(cfg, w, win, m, d), world);
    }
    if t.effects != [] {
      var d := IdleOtherwise(cfg, desk, w, submitted, win, m, world);
      ActsOnSide(cfg, desk, w, win, m, world, d);
      assert MayAct(cfg, w, submitted, win, m, world, d);
    }
  }

  /**
   A tick that does anything does it in an open window that fired in an earlier tick, at most two seconds
   before; the side is the strict winner of the complete read this tick took; and the one intent it
   saves, on a window that had none, is sanctioned.
   */
  lemma ActsOnFreshWinner(cfg: Config, desk: Desk, w: Watch, submitted: bool, win: Window, m: Moment, world: World)
    requires cfg.tick > 0.0 && AtRest(w, submitted)
    requires TickOne(cfg, desk, w, submitted, win, m, world).effects != []
    ensures var t := TickOne(cfg, desk, w, submitted, win, m, world);
            && HasOpened(win, m)
            && w.stage.Fired? && w.triggeredAt.Some? && m.now - w.triggeredAt.value <= 2.0
            && t.submitted && t.effects[0].SaveIntent?
            && var i := t.effects[0].intent;
               && t.effects[0].key == KeyOf(m.market.slug, win.offset) && KeyOf(m.market.slug, win.offset) !in world.intents
               && i.slug == m.market.slug
               && StrictWinner(ReadOf(m), i.direction)
               && i.limitPrice == Quoted(cfg, win, ReadOf(m), i.direction)
               && t.watch.side == Some(i.direction)
               && Sanctioned(cfg, win, i, m.market, m.health)
  {
    ActsExactlyWhen(cfg, desk, w, submitted, win, m, world);
    var d :| MayAct(cfg, w, submitted, win, m, world, d);
  }

  /** A tick leaves the window so that the next one meets it settled. */
  lemma TickSettles(cfg: Config, desk: Desk, w: Watch, submitted: bool, win: Window, m: Moment, world: World)
    requires cfg.tick > 0.0 && AtRest(w, submitted)
    ensures var t := TickOne(cfg, desk, w, submitted, win, m, world);
            && AtRest(t.watch, t.submitted)
            && (submitted ==> t == Ticked(w, true, []))
            && (t.submitted && !submitted ==> t.effects != [])
            && (t.watch.stage.Fired? && !w.stage.Fired? ==> t.watch.triggeredAt == Some(m.now))
            && (t.watch.stage.Fired? && w.stage.Fired? ==> t == Ticked(w, submitted, []))
  {
    if !Dormant(w, submitted, win, m) {
      var open := Opened(w);
      if open.triggeredAt.Some? {
        var read := if open.stage.Fired? then ReadAndDecide(open, m) else open;
        if read.stage.SideSelected? { ActingLaws(cfg, desk, read, win, m, world); }
      }
    }
  }
}
