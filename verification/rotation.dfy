/**
 Market rotation on the five-minute grid: at most two live markets, each with its own exact average.
 */
module Rotation {
  import opened Wrappers
  import opened Risk

  const DURATION: int := 300

  /** Grid start of the market containing `now`. */
  function WindowOf(now: real): int {
    (now / DURATION as real).Floor * DURATION
  }

  /** The one grid market that contains an instant. */
  lemma WindowContains(now: real, k: int)
    ensures (WindowOf(now) as real) <= now < (WindowOf(now) + 300) as real && WindowOf(now) % 300 == 0
    ensures (k * 300) as real <= now < (k * 300 + 300) as real ==> k * 300 == WindowOf(now)
  {
    var x := now / DURATION as real;
    assert x * DURATION as real == now;
    assert x.Floor as real <= x < (x.Floor + 1) as real;
  }

  lemma WindowMonotone(a: real, b: real)
    requires a <= b
    ensures WindowOf(a) <= WindowOf(b)
  {
    assert a / DURATION as real <= b / DURATION as real;
  }

  /** One market: its grid start, its phase, its exact sum and count, its opening reference. */
  datatype Market = Market(ts: int, phase: Phase, sum: real, count: nat, ptb: Option<real>, lastBtc: Option<real>) {
    predicate Observes() {
      phase == Discovered || phase == Active || phase == Cancelling || phase == Settling
    }
  }

  datatype Stored = Stored(phase: Phase, sum: real, count: nat, ptb: Option<real>, archived: bool)

  type Rows = map<int, Stored>

  datatype Rotator = Rotator(current: Option<Market>, closing: Option<Market>, marketsOpened: nat, marketsArchived: nat, routed: nat, dropped: nat, rows: Rows)

  /** What one advance did. */
  datatype Turned = Turned(started: Option<int>, closed: Option<int>, archived: Option<int>)

  // Row updates that match nothing change nothing.

  function WithSums(rows: Rows, m: Market): Rows {
    if m.ts in rows then rows[m.ts := rows[m.ts].(sum := m.sum, count := m.count)] else rows
  }

  function WithPhase(rows: Rows, ts: int, phase: Phase): Rows {
    if ts in rows then rows[ts := rows[ts].(phase := phase)] else rows
  }

  function AsArchived(rows: Rows, m: Market): Rows {
    var saved := WithSums(rows, m);
    if m.ts in saved then saved[m.ts := saved[m.ts].(archived := true)] else saved
  }

  function Archived(r: Rotator): Rotator
    requires r.closing.Some?
  {
    r.(closing := None, marketsArchived := r.marketsArchived + 1, rows := AsArchived(r.rows, r.closing.value))
  }

  predicate Reapable(r: Rotator) {
    r.closing.Some? && (r.closing.value.phase == Settled || r.closing.value.phase == Dead)
  }

  function Reaped(r: Rotator): (Rotator, Option<int>) {
    if Reapable(r) then (Archived(r), Some(r.closing.value.ts)) else (r, None)
  }

  /** The market as a fresh instance, or as its row left it. */
  function Instance(rows: Rows, ts: int): Market {
    if ts !in rows then Market(ts, Active, 0.0, 0, None, None)
    else Market(ts, if rows[ts].phase == Dead then Dead else Active, rows[ts].sum, rows[ts].count, rows[ts].ptb, None)
  }

  function Opened(r: Rotator, ts: int): Rotator {
    var m := Instance(r.rows, ts);
    r.(current := Some(m),
       marketsOpened := r.marketsOpened + 1,
       rows := if ts in r.rows then WithPhase(r.rows, ts, m.phase) else r.rows[ts := Stored(Active, 0.0, 0, None, false)])
  }

  function Closed(r: Rotator): Rotator
    requires r.current.Some?
  {
    var m := r.current.value.(phase := Settling);
    r.(closing := Some(m), current := None, rows := WithPhase(WithSums(r.rows, m), m.ts, Settling))
  }

  function Advanced(r: Rotator, now: real): (Rotator, Turned) {
    var ts := WindowOf(now);
    if r.current.Some? && r.current.value.ts == ts then (Reaped(r).0, Turned(None, None, None))
    else if r.current.None? then (Opened(r, ts), Turned(Some(ts), None, None))
    else
      var cleared := if r.closing.Some? then Archived(r) else r;
      (Opened(Closed(cleared), ts),
       Turned(Some(ts), Some(r.current.value.ts), if r.closing.Some? then Some(r.closing.value.ts) else None))
  }

  function MarkSettled(m: Option<Market>, ts: int): Option<Market> {
    if m.Some? && m.value.ts == ts then Some(m.value.(phase := Settled)) else m
  }

  predicate IsLiveAt(r: Rotator, ts: int) {
    (r.current.Some? && r.current.value.ts == ts) || (r.closing.Some? && r.closing.value.ts == ts)
  }

  function AfterSettled(r: Rotator, ts: int): (Rotator, Option<int>) {
    Reaped(r.(current := MarkSettled(r.current, ts), closing := MarkSettled(r.closing, ts),
              rows := if IsLiveAt(r, ts) then WithPhase(r.rows, ts, Settled) else r.rows))
  }

  function Heard(m: Option<Market>, price: real): Option<Market> {
    if m.Some? && m.value.Observes() then Some(m.value.(sum := m.value.sum + price, count := m.value.count + 1, lastBtc := Some(price))) else m
  }

  predicate Accepts(m: Option<Market>) {
    m.Some? && m.value.Observes()
  }

  function Routed(r: Rotator, price: real): Rotator {
    var any := Accepts(r.closing) || Accepts(r.current);
    r.(current := Heard(r.current, price), closing := Heard(r.closing, price),
       routed := if any then r.routed + 1 else r.routed, dropped := if any then r.dropped else r.dropped + 1)
  }

  /** Freezing refuses a second value and a non-positive one. */
  predicate CanFreeze(m: Option<Market>, ts: int, value: real) {
    m.Some? && m.value.ts == ts && m.value.ptb.None? && value > 0.0
  }

  function WithPtb(m: Option<Market>, ts: int, value: real): Option<Market> {
    if CanFreeze(m, ts, value) then Some(m.value.(ptb := Some(value))) else m
  }

  /** The row takes only its first. */
  function Frozen(r: Rotator, ts: int, value: real): Rotator {
    if CanFreeze(r.current, ts, value) || CanFreeze(r.closing, ts, value) then
      r.(current := WithPtb(r.current, ts, value), closing := WithPtb(r.closing, ts, value),
         rows := if ts in r.rows && r.rows[ts].ptb.None? then r.rows[ts := r.rows[ts].(ptb := Some(value))] else r.rows)
    else r
  }

  /** Driven from the rows: only one that is settling, has no reference, and is no live market's. */
  function LateFrozen(r: Rotator, ts: int, value: real): Rotator {
    if !IsLiveAt(r, ts) && ts in r.rows && r.rows[ts].phase == Settling && r.rows[ts].ptb.None? then
      r.(rows := r.rows[ts := r.rows[ts].(ptb := Some(value))])
    else r
  }

  // ── runs ──────────────────────────────────────────────────────────────────

  /** `LateFreeze` is the retry for a market that was let go before its reference was known. */
  datatype Event =
    | Advance(now: real)
    | Settlement(ts: int)
    | Observation(price: real)
    | Freeze(ts: int, value: real)
    | LateFreeze(ts: int, value: real)
    | Crash

  /**
   A rotator with its history: the last time it was advanced to, and for each market instance what
   its sum and count were when the instance was made and every price it has accepted since.
   */
  datatype History = History(r: Rotator, clock: real, base: map<int, (real, nat)>, heard: map<int, seq<real>>)

  function Prices(ps: seq<real>): real {
    if ps == [] then 0.0 else Prices(ps[..|ps| - 1]) + ps[|ps| - 1]
  }

  function HeardOf(h: map<int, seq<real>>, ts: int): seq<real> {
    if ts in h then h[ts] else []
  }

  /** A market hears prices from its discovery until it is settled, its settling included; a dead one never does. */
  predicate Listens(m: Option<Market>) {
    m.Some? && m.value.phase in {Discovered, Active, Cancelling, Settling}
  }

  function Noted(heard: map<int, seq<real>>, m: Option<Market>, price: real): map<int, seq<real>> {
    if Listens(m) then heard[m.value.ts := HeardOf(heard, m.value.ts) + [price]] else heard
  }

  function Step(h: History, e: Event): History {
    match e
    case Advance(now) =>
      var (r, turned) := Advanced(h.r, now);
      if turned.started.Some? then
        var m := Instance(h.r.rows, turned.started.value);
        History(r, now, h.base[m.ts := (m.sum, m.count)], h.heard[m.ts := []])
      else h.(r := r, clock := now)
    case Settlement(ts) => h.(r := AfterSettled(h.r, ts).0)
    case Observation(price) =>
      h.(r := Routed(h.r, price), heard := Noted(Noted(h.heard, h.r.closing, price), h.r.current, price))
    case Freeze(ts, value) => h.(r := Frozen(h.r, ts, value))
    case LateFreeze(ts, value) => h.(r := LateFrozen(h.r, ts, value))
    case Crash => h.(r := Rotator(None, None, 0, 0, 0, 0, h.r.rows))
  }

  /** The clock never steps back. */
  predicate Enabled(h: History, e: Event) {
    e.Advance? ==> e.now >= h.clock
  }

  /** A live market's sum and count are exactly its instance's starting ones and what it heard since. */
  predicate Exact(h: History, m: Market) {
    && m.ts in h.base && m.ts in h.heard
    && m.sum == h.base[m.ts].0 + Prices(h.heard[m.ts])
    && m.count == h.base[m.ts].1 + |h.heard[m.ts]|
    && m.ts in h.r.rows && h.r.rows[m.ts].ptb == m.ptb
  }

  predicate Inv(h: History) {
    && h.r.marketsOpened == h.r.marketsArchived + (if h.r.current.Some? then 1 else 0) + (if h.r.closing.Some? then 1 else 0)
    && (h.r.current.Some? ==> h.r.current.value.ts == WindowOf(h.clock) && Exact(h, h.r.current.value))
    && (h.r.closing.Some? ==> h.r.closing.value.ts < WindowOf(h.clock) && Exact(h, h.r.closing.value))
  }

  lemma AdvanceKeeps(h: History, now: real)
    requires Inv(h) && now >= h.clock
    ensures Inv(Step(h, Advance(now)))
  {
    WindowMonotone(h.clock, now);
  }

  /** What an observation makes of one live market: one more price while it listens, nothing else ever. */
  predicate Told(before: Option<Market>, after: Option<Market>, price: real) {
    if Listens(before) then
      after.Some? && after.value == before.value.(sum := before.value.sum + price, count := before.value.count + 1, lastBtc := Some(price))
    else after == before
  }

  /** An observation reaches every live market that listens, both of them at a boundary, and is routed exactly when one does. */
  lemma RoutedExactly(r: Rotator, price: real)
    ensures var r' := Routed(r, price);
            && Told(r.current, r'.current, price) && Told(r.closing, r'.closing, price)
            && (if Listens(r.current) || Listens(r.closing)
                then r'.routed == r.routed + 1 && r'.dropped == r.dropped
                else r'.routed == r.routed && r'.dropped == r.dropped + 1)
            && r'.rows == r.rows && r'.marketsOpened == r.marketsOpened && r'.marketsArchived == r.marketsArchived
  {
  }

  lemma ObservationKeeps(h: History, price: real)
    requires Inv(h)
    ensures Inv(Step(h, Observation(price)))
  {
  }

  lemma StepKeeps(h: History, e: Event)
    requires Inv(h) && Enabled(h, e)
    ensures Inv(Step(h, e))
  {
    match e
    case Advance(now) => AdvanceKeeps(h, now);
    case Observation(price) => ObservationKeeps(h, price);
    case _ =>
  }

  predicate Possible(h: History, run: seq<Event>)
    decreases |run|
  {
    run == [] || (Enabled(h, run[0]) && Possible(Step(h, run[0]), run[1..]))
  }

  function Final(h: History, run: seq<Event>): History
    decreases |run|
  {
    if run == [] then h else Final(Step(h, run[0]), run[1..])
  }

  lemma {:induction false} RunKeeps(h: History, run: seq<Event>)
    requires Inv(h) && Possible(h, run)
    ensures Inv(Final(h, run))
    ensures forall ts | ts in h.r.rows && h.r.rows[ts].ptb.Some? :: ts in Final(h, run).r.rows && Final(h, run).r.rows[ts].ptb == h.r.rows[ts].ptb
    decreases |run|
  {
    if run != [] {
      StepKeeps(h, run[0]);
      PtbStays(h, run[0]);
      RunKeeps(Step(h, run[0]), run[1..]);
    }
  }

  /** A reference on record is never replaced or lost. */
  lemma PtbStays(h: History, e: Event)
    requires Inv(h)
    ensures forall ts | ts in h.r.rows && h.r.rows[ts].ptb.Some? :: ts in Step(h, e).r.rows && Step(h, e).r.rows[ts].ptb == h.r.rows[ts].ptb
  {
  }

  const START: History := History(Rotator(None, None, 0, 0, 0, 0, map[]), 0.0, map[], map[])

  /**
   After any run that ends with an advance, whatever gaps the clock made: the current market is the
   grid market of that time, the closing one is older, opened markets are the archived and the live
   ones, and each live market's average is over exactly what it started from and what it was sent.
   */
  lemma EveryAdvanceIsRight(run: seq<Event>, now: real)
    requires Possible(START, run + [Advance(now)])
    ensures var h := Final(START, run + [Advance(now)]);
            && h.r.current.Some? && h.r.current.value.ts == WindowOf(now)
            && (h.r.closing.Some? ==> h.r.closing.value.ts < h.r.current.value.ts)
            && h.r.marketsOpened == h.r.marketsArchived + (if h.r.closing.Some? then 2 else 1)
            && Exact(h, h.r.current.value) && (h.r.closing.Some? ==> Exact(h, h.r.closing.value))
  {
    RunKeeps(START, run + [Advance(now)]);
    FinalLast(START, run, Advance(now));
  }

  lemma {:induction false} FinalLast(h: History, run: seq<Event>, e: Event)
    ensures Final(h, run + [e]) == Step(Final(h, run), e)
    decreases |run|
  {
    if run == [] {
      assert [] + [e] == [e] && [e][1..] == [];
      assert Final(Step(h, e), []) == Step(h, e);
    } else {
      assert (run + [e])[1..] == run[1..] + [e];
      FinalLast(Step(h, run[0]), run[1..], e);
    }
  }

  /** Advancing again inside the same window opens and closes nothing. */
  lemma AdvanceIsIdempotent(r: Rotator, now: real, again: real)
    requires WindowOf(now) == WindowOf(again)
    ensures var (r1, _) := Advanced(r, now);
            var (r2, turned) := Advanced(r1, again);
            && turned.started.None? && turned.closed.None?
            && r2.current == r1.current && r2.marketsOpened == r1.marketsOpened
            && Advanced(r2, again).0 == r2
  {
  }

  /** Over for good: nothing more will be heard of it or decided about it. */
  predicate IsOver(m: Option<Market>) {
    m.Some? && m.value.phase in {Settled, Dead}
  }

  /** The row has the market's last sum and count. */
  predicate Recorded(rows: Rows, m: Market) {
    m.ts in rows && rows[m.ts].sum == m.sum && rows[m.ts].count == m.count
  }

  /**
   Inside the window of the current market an advance only lets go of a closing one that is over, saved to
   the last observation. At a boundary the current market starts settling, on record with its sum and
   count; the one that was closing is let go the same way; and the new market opens: from its row if it has
   one, and dead only if that is.
   */
  lemma AdvanceDoes(h: History, now: real)
    requires Inv(h) && now >= h.clock
    ensures Step(h, Advance(now)).r == Advanced(h.r, now).0 && Step(h, Advance(now)).clock == now
    ensures var (r, (after, turned), ts) := (h.r, Advanced(h.r, now), WindowOf(now));
            if r.current.Some? && r.current.value.ts == ts then
              && turned == Turned(None, None, None) && after.current == r.current && after.marketsOpened == r.marketsOpened
              && after.closing == (if IsOver(r.closing) then None else r.closing)
              && after.marketsArchived == r.marketsArchived + (if IsOver(r.closing) then 1 else 0)
              && (IsOver(r.closing) ==> Recorded(after.rows, r.closing.value) && after.rows[r.closing.value.ts].archived)
              && (!IsOver(r.closing) ==> after.rows == r.rows)
            else
              && turned.started == Some(ts) && after.marketsOpened == r.marketsOpened + 1
              && after.current.Some? && after.current.value.lastBtc.None?
              && (ts !in r.rows ==> after.current == Some(Market(ts, Active, 0.0, 0, None, None)) && after.rows[ts] == Stored(Active, 0.0, 0, None, false))
              && (ts in r.rows ==>
                    && after.current.value.phase == (if r.rows[ts].phase == Dead then Dead else Active)
                    && after.rows[ts].phase == after.current.value.phase && Recorded(r.rows, after.current.value))
              && turned.closed == (if r.current.Some? then Some(r.current.value.ts) else None)
              && after.closing == (if r.current.Some? then Some(r.current.value.(phase := Settling)) else r.closing)
              && (r.current.Some? ==> Recorded(after.rows, r.current.value) && after.rows[r.current.value.ts].phase == Settling)
              && turned.archived == (if r.current.Some? && r.closing.Some? then Some(r.closing.value.ts) else None)
              && (turned.archived.Some? ==> Recorded(after.rows, r.closing.value) && after.rows[r.closing.value.ts].archived)
              && after.marketsArchived == r.marketsArchived + (if turned.archived.Some? then 1 else 0)
  {
    WindowMonotone(h.clock, now);
  }

  /** A settlement marks the market it names, live or not at all, and lets it go when it is the closing one. */
  lemma SettlementDoes(h: History, ts: int)
    requires Inv(h)
    ensures Step(h, Settlement(ts)).r == AfterSettled(h.r, ts).0
    ensures var (r, (after, archived)) := (h.r, AfterSettled(h.r, ts));
            var named := (m: Option<Market>) => m.Some? && m.value.ts == ts;
            && after.current == (if named(r.current) then Some(r.current.value.(phase := Settled)) else r.current)
            && after.closing == (if named(r.closing) || IsOver(r.closing) then None else r.closing)
            && archived == (if named(r.closing) || IsOver(r.closing) then Some(r.closing.value.ts) else None)
            && (archived.Some? ==> Recorded(after.rows, r.closing.value) && after.rows[r.closing.value.ts].archived)
            && (named(r.current) || named(r.closing) ==> after.rows[ts].phase == Settled)
            && after.marketsArchived == r.marketsArchived + (if archived.Some? then 1 else 0)
            && after.marketsOpened == r.marketsOpened
  {
  }

  /** The market is that one, and waits for a reference. */
  predicate Awaits(m: Option<Market>, ts: int) {
    m.Some? && m.value.ts == ts && m.value.ptb == None
  }

  function FrozenOn(m: Option<Market>, ts: int, value: real): Option<Market> {
    if 0.0 < value && Awaits(m, ts) then Some(m.value.(ptb := Some(value))) else m
  }

  /**
   A positive reference freezes on the live market it is for, if that has none, and then on its row too;
   a late one on the row of a market that is settling, has none and is no longer live. Nothing else moves.
   */
  lemma FreezingDoes(h: History, ts: int, value: real)
    requires Inv(h)
    ensures var r, after := h.r, Step(h, Freeze(ts, value)).r;
            && after == r.(current := FrozenOn(r.current, ts, value), closing := FrozenOn(r.closing, ts, value), rows := after.rows)
            && (forall k | k in r.rows && (k != ts || value <= 0.0 || !(Awaits(r.current, ts) || Awaits(r.closing, ts))) :: k in after.rows && after.rows[k] == r.rows[k])
            && (0.0 < value && (Awaits(r.current, ts) || Awaits(r.closing, ts)) ==> ts in after.rows && after.rows[ts] == r.rows[ts].(ptb := Some(value)))
            && after.rows.Keys == r.rows.Keys
    ensures var r, after := h.r, Step(h, LateFreeze(ts, value)).r;
            var takes := ts in r.rows && r.rows[ts].phase == Settling && r.rows[ts].ptb == None
                         && (r.current == None || r.current.value.ts != ts) && (r.closing == None || r.closing.value.ts != ts);
            after == if takes then r.(rows := r.rows[ts := r.rows[ts].(ptb := Some(value))]) else r
  {
  }

  /** A market the store has never seen starts from nothing: its sum is exactly what it heard. */
  lemma FreshMarketIsExact(h: History, now: real)
    requires Inv(h) && now >= h.clock && WindowOf(now) !in h.r.rows
    ensures var h' := Step(h, Advance(now));
            h'.base[WindowOf(now)] == (0.0, 0) && h'.heard[WindowOf(now)] == [] && h'.r.current == Some(Market(WindowOf(now), Active, 0.0, 0, None, None))
  {
    assert h.r.current.Some? ==> h.r.current.value.ts in h.r.rows;
  }

  /** A restart in the same window resumes the saved sum, count and reference, and never revives a dead market. */
  lemma RestartResumes(h: History, now: real)
    requires Inv(h) && now >= h.clock && WindowOf(now) in h.r.rows
    ensures var row, h' := h.r.rows[WindowOf(now)], Step(Step(h, Crash), Advance(now));
            && Step(h, Crash).r == Rotator(None, None, 0, 0, 0, 0, h.r.rows)
            && h'.r.current.Some?
            && var m := h'.r.current.value;
               && m.sum == row.sum && m.count == row.count && m.ptb == row.ptb
               && (m.phase == Dead <==> row.phase == Dead)
  {
  }

  /** What is archived is on record to the last observation. */
  lemma ArchivedExactly(h: History, e: Event)
    requires Inv(h) && Enabled(h, e) && h.r.closing.Some? && Step(h, e).r.marketsArchived > h.r.marketsArchived
    ensures var m, rows := h.r.closing.value, Step(h, e).r.rows;
            && m.ts in rows && rows[m.ts].archived
            && rows[m.ts].sum == h.base[m.ts].0 + Prices(h.heard[m.ts])
            && rows[m.ts].count == h.base[m.ts].1 + |h.heard[m.ts]|
  {
    if e.Advance? { WindowMonotone(h.clock, e.now); }
  }

  /** A market's reference never changes once on record, and a live market that has one has that one. */
  lemma {:induction false} PtbOnceForGood(run: seq<Event>, more: seq<Event>, ts: int)
    requires Possible(START, run) && Possible(Final(START, run), more)
    requires ts in Final(START, run).r.rows && Final(START, run).r.rows[ts].ptb.Some?
    ensures var early, late := Final(START, run), Final(Final(START, run), more);
            && ts in late.r.rows && late.r.rows[ts].ptb == early.r.rows[ts].ptb
            && (late.r.current.Some? && late.r.current.value.ts == ts ==> late.r.current.value.ptb == early.r.rows[ts].ptb)
            && (late.r.closing.Some? && late.r.closing.value.ts == ts ==> late.r.closing.value.ptb == early.r.rows[ts].ptb)
  {
    RunKeeps(START, run);
    RunKeeps(Final(START, run), more);
  }

  // ── the imperative form ───────────────────────────────────────────────────

  /** The exact sum and count; the mean is computed on read. */
  class TwapAccumulator {
    var sum: real
    var count: nat

    constructor (sum: real, count: nat)
      ensures this.sum == sum && this.count == count
    {
      this.sum, this.count := sum, count;
    }

    method Add(price: real)
      modifies this
      ensures sum == old(sum) + price && count == old(count) + 1
    {
      sum := sum + price;
      count := count + 1;
    }
  }

  class MarketInstance {
    const ts: int
    const accumulator: TwapAccumulator
    var phase: Phase
    var ptb: Option<real>
    var lastBtc: Option<real>

    function AsMarket(): Market
      reads this, accumulator
    {
      Market(ts, phase, accumulator.sum, accumulator.count, ptb, lastBtc)
    }

    constructor (m: Market)
      ensures AsMarket() == m && fresh(accumulator)
    {
      ts, phase, ptb, lastBtc := m.ts, m.phase, m.ptb, m.lastBtc;
      accumulator := new TwapAccumulator(m.sum, m.count);
    }

    method FreezePtb(value: real) returns (raised: bool)
      modifies this
      ensures raised <==> !CanFreeze(Some(old(AsMarket())), ts, value)
      ensures Some(AsMarket()) == WithPtb(Some(old(AsMarket())), ts, value)
    {
      if ptb.Some? || value <= 0.0 { return true; }
      ptb := Some(value);
      return false;
    }

    method AddObservation(price: real) returns (raised: bool)
      modifies this, accumulator
      ensures raised <==> old(phase) in {Settled, Dead}
      ensures Some(AsMarket()) == Heard(Some(old(AsMarket())), price)
    {
      if phase != Discovered && phase != Active && phase != Cancelling && phase != Settling { return true; }
      lastBtc := Some(price);
      accumulator.Add(price);
      return false;
    }
  }

  class MarketRotator {
    var current: MarketInstance?
    var closing: MarketInstance?
    var marketsOpened: nat
    var marketsArchived: nat
    var routed: nat
    var dropped: nat
    var rows: Rows

    /** The live instances are apart: no state leaks across a boundary. */
    ghost predicate Valid()
      reads this
    {
      current != null && closing != null ==> current != closing && current.accumulator != closing.accumulator
    }

    ghost function Footprint(): set<object>
      reads this
    {
      {this} + (if current != null then {current, current.accumulator} else {}) + (if closing != null then {closing, closing.accumulator} else {})
    }

    function View(): Rotator
      reads this, current, closing, if current != null then {current.accumulator} else {}, if closing != null then {closing.accumulator} else {}
    {
      Rotator(if current != null then Some(current.AsMarket()) else None, if closing != null then Some(closing.AsMarket()) else None,
              marketsOpened, marketsArchived, routed, dropped, rows)
    }

    constructor (rows: Rows)
      ensures Valid() && View() == Rotator(None, None, 0, 0, 0, 0, rows)
    {
      this.rows := rows;
      current, closing, marketsOpened, marketsArchived, routed, dropped := null, null, 0, 0, 0, 0;
    }

    method Archive()
      requires Valid() && closing != null
      modifies this
      ensures Valid() && current == old(current) && closing == null && View() == Archived(old(View()))
    {
      rows := AsArchived(rows, closing.AsMarket());
      closing := null;
      marketsArchived := marketsArchived + 1;
    }

    method Reap() returns (archived: Option<int>)
      requires Valid()
      modifies this
      ensures Valid() && current == old(current)
      ensures (View(), archived) == Reaped(old(View()))
    {
      if closing == null { return None; }
      if closing.phase == Settled || closing.phase == Dead {
        archived := Some(closing.ts);
        Archive();
      } else {
        archived := None;
      }
    }

    method Open(ts: int)
      requires Valid()
      modifies this
      ensures Valid() && current != null && fresh(current) && fresh(current.accumulator) && closing == old(closing)
      ensures View() == Opened(old(View()), ts)
    {
      var m := Instance(rows, ts);
      rows := if ts in rows then WithPhase(rows, ts, m.phase) else rows[ts := Stored(Active, 0.0, 0, None, false)];
      current := new MarketInstance(m);
      marketsOpened := marketsOpened + 1;
    }

    method Close()
      requires Valid() && current != null && closing == null
      modifies this, current
      ensures Valid() && current == null && closing == old(current) && View() == Closed(old(View()))
    {
      var previous := current;
      closing, current := previous, null;
      previous.phase := Settling;
      rows := WithPhase(WithSums(rows, previous.AsMarket()), previous.ts, Settling);
    }

    method Advance(now: real) returns (turned: Turned)
      requires Valid()
      modifies this, current
      ensures Valid() && (View(), turned) == Advanced(old(View()), now)
    {
      var ts := WindowOf(now);
      if current != null && current.ts == ts {
        var _ := Reap();
        return Turned(None, None, None);
      }
      var closed, archived := None, None;
      if current != null {
        if closing != null {
          archived := Some(closing.ts);
          Archive();
        }
        closed := Some(current.ts);
        Close();
      }
      Open(ts);
      return Turned(Some(ts), closed, archived);
    }

    method SettledAt(ts: int) returns (archived: Option<int>)
      requires Valid()
      modifies this, current, closing
      ensures Valid() && (View(), archived) == AfterSettled(old(View()), ts)
    {
      if closing != null && closing.ts == ts {
        closing.phase := Settled;
        rows := WithPhase(rows, ts, Settled);
      }
      if current != null && current.ts == ts {
        current.phase := Settled;
        rows := WithPhase(rows, ts, Settled);
      }
      assert rows == if IsLiveAt(old(View()), ts) then WithPhase(old(rows), ts, Settled) else old(rows);
      archived := Reap();
    }

    method Route(price: real)
      requires Valid()
      modifies Footprint()
      ensures Valid() && View() == Routed(old(View()), price)
      ensures routed == old(routed) + if Listens(old(View()).current) || Listens(old(View()).closing) then 1 else 0
    {
      var any := false;
      if closing != null {
        var raised := closing.AddObservation(price);
        any := any || !raised;
      }
      if current != null {
        var raised := current.AddObservation(price);
        any := any || !raised;
      }
      if any { routed := routed + 1; } else { dropped := dropped + 1; }
    }
  }
}
