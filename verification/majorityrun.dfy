module MajorityRuns {
  // Runs of the MAJORITY engine: ticks, crashes after any effect, restarts, and everything else in between.

  import Ids
  import opened Orders
  import opened Backend
  import Chains
  import Money
  import Split
  import opened Submit
  import opened Trigger
  import opened Watches
  import opened Majority
  import opened Wrappers
  import Fills
  import Reconcile
  import Reprice
  import Runs
  import Sweep

  /** A market's window, as the engine's dictionaries key it. */
  type Key = (string, nat)

  datatype Engine = Engine(states: map<Key, Watch>, submitted: set<Key>)

  /** New state for the first `n` configured windows. */
  function Opening(cfg: Config, eng: Engine, slug: string, n: nat): Engine
    requires n <= |cfg.windows|
  {
    if n == 0 then eng
    else
      var e := Opening(cfg, eng, slug, n - 1);
      e.(states := e.states[(slug, cfg.windows[n - 1].offset) := NewWatch(if cfg.tradable then WaitingWindow else Off)])
  }

  /** `offsets` lists the market's persisted intents. */
  ghost predicate Lists(offsets: seq<nat>, intents: map<IntentKey, Intent>, slug: string) {
    forall o :: o in offsets <==> KeyOf(slug, o) in intents
  }

  function RestoredWatch(eng: Engine, key: Key, i: Intent): Watch {
    Restored(if key in eng.states then eng.states[key] else NewWatch(WaitingWindow), i.direction, i.createdAt)
  }

  /** Each persisted intent's lock put back, on the window's state or on a new one. */
  function Restoring(eng: Engine, intents: map<IntentKey, Intent>, slug: string, offsets: seq<nat>): Engine
    requires forall o | o in offsets :: KeyOf(slug, o) in intents
    decreases |offsets|
  {
    if offsets == [] then eng
    else
      var n := |offsets| - 1;
      var e, key := Restoring(eng, intents, slug, offsets[..n]), (slug, offsets[n]);
      Engine(e.states[key := RestoredWatch(e, key, intents[KeyOf(slug, offsets[n])])], e.submitted + {key})
  }

  function Dropping(eng: Engine, slug: string): Engine {
    Engine(map k | k in eng.states && k.0 != slug :: eng.states[k], set k | k in eng.submitted && !(k in eng.states && k.0 == slug))
  }

  // ── runs ──────────────────────────────────────────────────────────────────

  /** One tick of one window: whose it was, when, of a market closing when, and under which configuration. */
  datatype Turn = Turn(key: Key, now: real, closeTs: int, cfg: Config)

  /** What justified an intent when it was saved, by the numbers of two ticks of the run. */
  datatype Evidence = Evidence(firedTurn: nat, readTurn: nat, book: Book, win: Window, market: Market, health: Health)

  /** A process that died comes back under whatever configuration was saved meanwhile. */
  datatype Event =
    | Boot(slug: string, offsets: seq<nat>)
    | Tick(win: Window, m: Moment, cut: Option<nat>)
    | Drop(slug: string)
    | Crash(next: Config)
    | Elsewhere(world: World)

  /**
   The world, and the process's configuration and state. `turns`, `fired` and `log` are history: every
   tick so far, the tick a window fired in, and the evidence behind each intent.
   */
  datatype Run = Run(world: World, cfg: Config, eng: Engine, turns: seq<Turn>, fired: map<Key, nat>, log: map<IntentKey, Evidence>)

  /** What other components may do meanwhile: move rows on, add successors and fills, but no first orders and no intents. */
  ghost predicate Permitted(w: World, w': World) {
    && Chains.Evolves(w, w') && w'.intents == w.intents
    && (forall id | id in w'.rows && id !in w.rows :: id.generation > 0)
  }

  ghost predicate Enabled(r: Run, e: Event) {
    match e
    case Boot(slug, offsets) => Lists(offsets, r.world.intents, slug)
    case Tick(win, m, _) => r.cfg.tradable && win in r.cfg.windows && KeyAt(win, m) in r.eng.states
    case Crash(next) => next.tick > 0.0
    case Elsewhere(w) => Permitted(r.world, w)
    case _ => true
  }

  function KeyAt(win: Window, m: Moment): Key {
    (m.market.slug, win.offset)
  }

  function Now(desk: Desk, r: Run, win: Window, m: Moment): Ticked
    requires r.cfg.tick > 0.0 && KeyAt(win, m) in r.eng.states
  {
    TickOne(r.cfg, desk, r.eng.states[KeyAt(win, m)], KeyAt(win, m) in r.eng.submitted, win, m, r.world)
  }

  function Logged(r: Run, win: Window, m: Moment, done: seq<Effect>): map<IntentKey, Evidence> {
    var key := KeyAt(win, m);
    if done == [] || !done[0].SaveIntent? || key !in r.fired then r.log
    else r.log[done[0].key := Evidence(r.fired[key], |r.turns|, Book(m.quote.up, m.quote.down, m.now, true), win, m.market, m.health)]
  }

  function Ticking(r: Run, win: Window, m: Moment): seq<Turn> {
    r.turns + [Turn(KeyAt(win, m), m.now, m.market.closeTs, r.cfg)]
  }

  function Step(desk: Desk, r: Run, e: Event): (r': Run)
    requires r.cfg.tick > 0.0 && (e.Tick? ==> KeyAt(e.win, e.m) in r.eng.states)
    requires e.Boot? ==> forall o | o in e.offsets :: KeyOf(e.slug, o) in r.world.intents
    ensures r'.cfg == if e.Crash? then e.next else r.cfg
    ensures r.turns <= r'.turns
  {
    match e
    case Boot(slug, offsets) => r.(eng := Restoring(Opening(r.cfg, r.eng, slug, |r.cfg.windows|), r.world.intents, slug, offsets))
    case Drop(slug) => r.(eng := Dropping(r.eng, slug))
    case Crash(next) => r.(cfg := next, eng := Engine(map[], {}))
    case Elsewhere(w) => r.(world := w)
    case Tick(win, m, cut) =>
      var key, t := KeyAt(win, m), Now(desk, r, win, m);
      var turns := Ticking(r, win, m);
      if cut.Some? && cut.value < |t.effects| then
        var done := t.effects[..cut.value];
        Run(ApplyAll(r.world, done), r.cfg, Engine(map[], {}), turns, r.fired, Logged(r, win, m, done))
      else
        Run(ApplyAll(r.world, t.effects), r.cfg,
            Engine(r.eng.states[key := t.watch], if t.submitted then r.eng.submitted + {key} else r.eng.submitted),
            turns,
            if t.watch.stage.Fired? && !r.eng.states[key].stage.Fired? then r.fired[key := |r.turns|] else r.fired,
            Logged(r, win, m, t.effects))
  }

  // ── what every run keeps ──────────────────────────────────────────────────

  /** The tick came with no more than the window's offset left to the close. */
  predicate InWindow(t: Turn) {
    (t.closeTs - t.key.1) as real <= t.now
  }

  /**
   The intent's side strictly won one complete read, taken by a tick of its window that came after the
   one that fired it and at most two seconds later by the clocks of the two, neither before the window
   opened; price, gates, grid, band and size were right under the configuration the later tick ran with.
   */
  ghost predicate Justified(turns: seq<Turn>, k: IntentKey, i: Intent, e: Evidence) {
    && k == KeyOf(i.slug, i.offset)
    && e.firedTurn < e.readTurn < |turns|
    && var fired, read := turns[e.firedTurn], turns[e.readTurn];
       && fired.key == read.key == (i.slug, i.offset)
       && InWindow(fired) && InWindow(read)
       && e.book.readAt == read.now && read.now - fired.now <= 2.0
       && read.cfg.tick > 0.0 && e.win in read.cfg.windows
       && StrictWinner(e.book, i.direction) && i.limitPrice == Quoted(read.cfg, e.win, e.book, i.direction)
       && e.market.closeTs == read.closeTs && Sanctioned(read.cfg, e.win, i, e.market, e.health)
  }

  ghost predicate IntentsJustified(r: Run) {
    forall k | k in r.world.intents && k.engine == MAJORITY_ENGINE ::
      k in r.log && Justified(r.turns, k, r.world.intents[k], r.log[k])
  }

  /** The submitter the engine is built with: minimum is the least configured share count. */
  predicate DeskOk(desk: Desk) {
    desk.engine == MAJORITY_ENGINE && desk.step > 0.0 && desk.minimum > 0.0
  }

  /** A chain's first MAJORITY order is its intent, floored to the size step. */
  predicate FromIntent(desk: Desk, row: Row, i: Intent)
    requires DeskOk(desk)
  {
    && row.id.chain.index == 0
    && row.direction == i.direction && row.price == i.limitPrice
    && row.size == Money.FloorTo(i.size, desk.step)
  }

  ghost predicate RowsFromIntents(desk: Desk, w: World)
    requires DeskOk(desk)
  {
    forall id | id in w.rows && id.chain.engine == MAJORITY_ENGINE && id.generation == 0 ::
      && w.rows[id].id == id
      && KeyOf(id.chain.slug, id.chain.offset) in w.intents
      && FromIntent(desk, w.rows[id], w.intents[KeyOf(id.chain.slug, id.chain.offset)])
  }

  ghost predicate WatchOk(r: Run, key: Key)
    requires key in r.eng.states
  {
    var w, k := r.eng.states[key], KeyOf(key.0, key.1);
    && AtRest(w, key in r.eng.submitted)
    && (w.stage.Fired? ==>
          && key in r.fired && r.fired[key] < |r.turns|
          && var t := r.turns[r.fired[key]]; t.key == key && w.triggeredAt == Some(t.now) && InWindow(t))
    && (k in r.world.intents ==> key in r.eng.submitted && w.side == Some(r.world.intents[k].direction))
  }

  ghost predicate WatchesOk(r: Run) {
    forall key | key in r.eng.states :: WatchOk(r, key)
  }

  ghost predicate RunOk(desk: Desk, r: Run)
    requires DeskOk(desk)
  {
    r.cfg.tick > 0.0 && IntentsJustified(r) && RowsFromIntents(desk, r.world) && WatchesOk(r)
  }

  // ── one order from one intent ─────────────────────────────────────────────

  /** Every row the effects write is this order's, on these terms. */
  predicate Templated(es: seq<Effect>, row: Row) {
    forall i | 0 <= i < |es| :: es[i].SaveRow? ==> SameTerms(es[i].row, row)
  }

  lemma {:induction false} TemplatedRows(w: World, es: seq<Effect>, row: Row)
    requires Templated(es, row) && (row.id in w.rows ==> SameTerms(w.rows[row.id], row))
    ensures var w' := ApplyAll(w, es);
            && (forall id | id in w.rows :: id in w'.rows && SameTerms(w'.rows[id], w.rows[id]))
            && (forall id | id in w'.rows && id !in w.rows :: id == row.id && SameTerms(w'.rows[id], row))
    decreases |es|
  {
    if es != [] {
      TemplatedRows(Apply(w, es[0]), es[1..], row);
    }
  }

  lemma {:induction false} AttemptsTemplated(row: Row, answers: Answers, n: nat)
    requires 1 <= n <= IMMEDIATE_RETRY_LIMIT
    ensures Templated(Attempts(row, answers, n), row)
    ensures forall i | 0 <= i < |Attempts(row, answers, n)| :: !Attempts(row, answers, n)[i].SaveIntent?
    decreases IMMEDIATE_RETRY_LIMIT - n
  {
    if Transient(answers, n) && n < IMMEDIATE_RETRY_LIMIT {
      AttemptsTemplated(row, answers, n + 1);
    }
  }

  lemma {:induction false} IntentsKept(w: World, es: seq<Effect>)
    requires forall i | 0 <= i < |es| :: !es[i].SaveIntent?
    ensures ApplyAll(w, es).intents == w.intents
    decreases |es|
  {
    if es != [] {
      IntentsKept(Apply(w, es[0]), es[1..]);
    }
  }

  /** The whole intent goes into one order, or none. */
  lemma OneOrder(w: World, desk: Desk, i: Intent, answers: nat -> Answers) returns (row: Row)
    requires DeskOk(desk) && i.size > 0.0
    ensures FromIntent(desk, row, i) && row.id == Slot(desk, i, 0) && Fresh(row)
    ensures SubmitEffects(w, desk, i, 1, true, answers).Ok?
    ensures var es := SubmitEffects(w, desk, i, 1, true, answers).value;
            Templated(es, row) && forall k | 0 <= k < |es| :: !es[k].SaveIntent?
  {
    row := NewRow(Slot(desk, i, 0), i.direction, i.limitPrice, Money.FloorTo(i.size, desk.step));
    Money.FloorToIsGreatest(i.size, desk.step);
    Money.StepsAdd(0, 0, desk.step);
    assert Money.Steps(0, desk.step) <= Money.FloorTo(i.size, desk.step);
    var ladder := Split.Ladder(i.size, 1, desk.minimum, desk.step);
    if ladder.value != [] {
      Split.LadderConserves(i.size, 1, desk.minimum, desk.step);
      assert ladder.value[..0] == [];
      assert Split.Sum(ladder.value) == Split.Sum([]) + ladder.value[0];
      var rows := Plan(desk, i, 1).value;
      assert rows == [row];
      AttemptsTemplated(row, answers(0), 1);
      assert PlaceFirst(w, rows, answers, 0) == [];
      assert PlaceAllEffects(w, rows, answers) == [] + PlaceOneEffects(w.rows, row, answers(0));
    }
  }

  /** What any prefix of an acting tick leaves in the store. */
  lemma ActedPrefix(desk: Desk, r: Run, win: Window, m: Moment, n: nat)
    requires DeskOk(desk) && RunOk(desk, r) && KeyAt(win, m) in r.eng.states
    requires 0 < n <= |Now(desk, r, win, m).effects|
    ensures var t := Now(desk, r, win, m);
            var w' := ApplyAll(r.world, t.effects[..n]);
            && t.effects[0].SaveIntent? && t.effects[..n] != [] && t.effects[..n][0] == t.effects[0]
            && w'.intents == r.world.intents[t.effects[0].key := t.effects[0].intent]
            && t.effects[0].key !in r.world.intents && t.effects[0].key == KeyOf(m.market.slug, win.offset)
            && RowsFromIntents(desk, w')
  {
    var t := Now(desk, r, win, m);
    var key := KeyAt(win, m);
    assert WatchOk(r, key);
    ActsOnFreshWinner(r.cfg, desk, r.eng.states[key], key in r.eng.submitted, win, m, r.world);
    var i, save := t.effects[0].intent, t.effects[0];
    var w1 := Apply(r.world, save);
    var row := OneOrder(w1, desk, i, m.answers);
    ActingEffects(desk, r, win, m);
    var rest := t.effects[1..n];
    assert t.effects[..n] == [save] + rest;
    ApplyAllCons(r.world, save, rest);
    assert forall k | 0 <= k < |rest| :: rest[k] == t.effects[1..][k];
    IntentsKept(w1, rest);
    RowsFromOne(desk, r.world, i, w1, rest, row);
  }

  /** After the intent, the effects are the submitter's. */
  lemma ActingEffects(desk: Desk, r: Run, win: Window, m: Moment)
    requires r.cfg.tick > 0.0 && DeskOk(desk) && KeyAt(win, m) in r.eng.states && AtRest(r.eng.states[KeyAt(win, m)], KeyAt(win, m) in r.eng.submitted)
    requires Now(desk, r, win, m).effects != []
    ensures var es := Now(desk, r, win, m).effects;
            && es[0].SaveIntent?
            && (es[1..] == [] || (SubmitEffects(Apply(r.world, es[0]), desk, es[0].intent, 1, true, m.answers).Ok?
                  && es[1..] == SubmitEffects(Apply(r.world, es[0]), desk, es[0].intent, 1, true, m.answers).value))
  {
    var open := Opened(r.eng.states[KeyAt(win, m)]);
    var read := ReadAndDecide(open, m);
    var es := Now(desk, r, win, m).effects;
    var i := Approved(r.cfg, read, win, m, r.world).value;
    var save := SaveIntent(KeyOf(i.slug, i.offset), i);
    assert es == Sending(desk, read, m, i, r.world).effects;
    assert es[0] == save;
    var sent := SubmitEffects(Apply(r.world, save), desk, i, 1, m.market.phase.Active?, m.answers);
    if sent.Ok? {
      assert ([save] + sent.value)[1..] == sent.value;
    }
  }

  lemma RowsFromOne(desk: Desk, w: World, i: Intent, w1: World, rest: seq<Effect>, row: Row)
    requires DeskOk(desk) && RowsFromIntents(desk, w) && Templated(rest, row)
    requires w1 == Apply(w, SaveIntent(KeyOf(i.slug, i.offset), i)) && KeyOf(i.slug, i.offset) !in w.intents
    requires FromIntent(desk, row, i) && row.id == Slot(desk, i, 0)
    requires ApplyAll(w1, rest).intents == w1.intents
    ensures RowsFromIntents(desk, ApplyAll(w1, rest))
  {
    assert row.id !in w.rows by {
      assert row.id.chain.engine == MAJORITY_ENGINE && row.id.generation == 0;
      assert KeyOf(row.id.chain.slug, row.id.chain.offset) == KeyOf(i.slug, i.offset);
    }
    TemplatedRows(w1, rest, row);
  }

  // ── each event keeps it ───────────────────────────────────────────────────

  /** Each of the first `n` configured windows gets a new watch, waiting or off; every other one is as it was. */
  lemma {:induction false} OpeningLeaves(cfg: Config, eng: Engine, slug: string, n: nat, key: Key)
    requires n <= |cfg.windows|
    ensures var e := Opening(cfg, eng, slug, n);
            && e.submitted == eng.submitted
            && if key.0 == slug && exists k | 0 <= k < n :: cfg.windows[k].offset == key.1 then
                 key in e.states && e.states[key] == NewWatch(if cfg.tradable then WaitingWindow else Off)
               else (key in e.states <==> key in eng.states) && (key in e.states ==> e.states[key] == eng.states[key])
  {
    if n > 0 {
      OpeningLeaves(cfg, eng, slug, n - 1, key);
      if key.0 == slug && cfg.windows[n - 1].offset == key.1 {
        assert exists k | 0 <= k < n :: cfg.windows[k].offset == key.1;
      }
    }
  }

  /** Each listed window is spent and locked on its intent's side since the intent was made, whether it had a watch or not; every other one is as it was. */
  lemma {:induction false} RestoringLeaves(eng: Engine, intents: map<IntentKey, Intent>, slug: string, offsets: seq<nat>, key: Key)
    requires forall o | o in offsets :: KeyOf(slug, o) in intents
    ensures var e := Restoring(eng, intents, slug, offsets);
            if key.0 == slug && key.1 in offsets then
              && key in e.states && key in e.submitted
              && var i, held := intents[KeyOf(slug, key.1)], if key in eng.states then eng.states[key] else NewWatch(WaitingWindow);
                 e.states[key] == held.(side := Some(i.direction), sideAt := Some(i.createdAt), stage := SideSelected)
            else
              && (key in e.states <==> key in eng.states) && (key in eng.states ==> e.states[key] == eng.states[key])
              && (key in e.submitted <==> key in eng.submitted)
    decreases |offsets|
  {
    if offsets != [] {
      var n := |offsets| - 1;
      RestoringLeaves(eng, intents, slug, offsets[..n], key);
      assert offsets == offsets[..n] + [offsets[n]];
    }
  }

  /** Dropping a market throws away every watch of its windows, and forgets that those were spent; the other markets keep theirs. */
  lemma DroppingLeaves(eng: Engine, slug: string, key: Key)
    ensures var e := Dropping(eng, slug);
            && (key in e.states <==> key in eng.states && key.0 != slug)
            && (key in e.states ==> e.states[key] == eng.states[key])
            && (key in e.submitted <==> key in eng.submitted && (key.0 != slug || key !in eng.states))
  {
  }

  /** Restored from the store, every window with an intent is spent and locked on that intent's side. */
  lemma BootOk(desk: Desk, r: Run, slug: string, offsets: seq<nat>)
    requires DeskOk(desk) && RunOk(desk, r) && Lists(offsets, r.world.intents, slug)
    ensures RunOk(desk, Step(desk, r, Boot(slug, offsets)))
  {
    var open := Opening(r.cfg, r.eng, slug, |r.cfg.windows|);
    var r' := Step(desk, r, Boot(slug, offsets));
    forall key | key in r'.eng.states
      ensures WatchOk(r', key)
    {
      OpeningLeaves(r.cfg, r.eng, slug, |r.cfg.windows|, key);
      RestoringLeaves(open, r.world.intents, slug, offsets, key);
      if key in r.eng.states { assert WatchOk(r, key); }
    }
  }

  lemma ElsewhereOk(desk: Desk, r: Run, w: World)
    requires DeskOk(desk) && RunOk(desk, r) && Permitted(r.world, w)
    ensures RunOk(desk, r.(world := w))
  {
    forall key | key in r.eng.states
      ensures WatchOk(r.(world := w), key)
    {
      assert WatchOk(r, key);
    }
    forall id | id in w.rows && id.chain.engine == MAJORITY_ENGINE && id.generation == 0
      ensures w.rows[id].id == id && KeyOf(id.chain.slug, id.chain.offset) in w.intents
      ensures FromIntent(desk, w.rows[id], w.intents[KeyOf(id.chain.slug, id.chain.offset)])
    {
      assert id in r.world.rows;
    }
  }

  /** A tick that saves an intent logs what justifies it. */
  lemma LogJustifies(desk: Desk, r: Run, win: Window, m: Moment, n: nat)
    requires DeskOk(desk) && RunOk(desk, r) && Enabled(r, Tick(win, m, None))
    requires 0 < n <= |Now(desk, r, win, m).effects|
    ensures var done := Now(desk, r, win, m).effects[..n];
            IntentsJustified(r.(world := ApplyAll(r.world, done), turns := Ticking(r, win, m), log := Logged(r, win, m, done)))
  {
    var key, t := KeyAt(win, m), Now(desk, r, win, m);
    assert WatchOk(r, key);
    ActedPrefix(desk, r, win, m, n);
    ActsOnFreshWinner(r.cfg, desk, r.eng.states[key], key in r.eng.submitted, win, m, r.world);
    var done, log, turns := t.effects[..n], Logged(r, win, m, t.effects[..n]), Ticking(r, win, m);
    var k, i := t.effects[0].key, t.effects[0].intent;
    assert log == r.log[k := log[k]];
    assert Justified(turns, k, i, log[k]);
    forall j | j in ApplyAll(r.world, done).intents && j.engine == MAJORITY_ENGINE
      ensures j in log && Justified(turns, j, ApplyAll(r.world, done).intents[j], log[j])
    {
      if j != k { assert j in r.world.intents; }
    }
  }

  lemma CutTickOk(desk: Desk, r: Run, win: Window, m: Moment, n: nat)
    requires DeskOk(desk) && RunOk(desk, r) && Enabled(r, Tick(win, m, Some(n)))
    requires n < |Now(desk, r, win, m).effects|
    ensures RunOk(desk, Step(desk, r, Tick(win, m, Some(n))))
  {
    var t := Now(desk, r, win, m);
    if n > 0 {
      ActedPrefix(desk, r, win, m, n);
      LogJustifies(desk, r, win, m, n);
    } else {
      assert t.effects[..0] == [];
      assert ApplyAll(r.world, []) == r.world;
    }
  }

  lemma QuietTickOk(desk: Desk, r: Run, win: Window, m: Moment)
    requires DeskOk(desk) && RunOk(desk, r) && Enabled(r, Tick(win, m, None))
    requires Now(desk, r, win, m).effects == []
    ensures RunOk(desk, Step(desk, r, Tick(win, m, None)))
  {
    var key, t, r' := KeyAt(win, m), Now(desk, r, win, m), Step(desk, r, Tick(win, m, None));
    assert WatchOk(r, key);
    TickSettles(r.cfg, desk, r.eng.states[key], key in r.eng.submitted, win, m, r.world);
    assert r'.world == r.world && r'.log == r.log;
    forall k | k in r'.eng.states
      ensures WatchOk(r', k)
    {
      if k != key { assert WatchOk(r, k); }
    }
  }

  lemma ActingTickOk(desk: Desk, r: Run, win: Window, m: Moment)
    requires DeskOk(desk) && RunOk(desk, r) && Enabled(r, Tick(win, m, None))
    requires Now(desk, r, win, m).effects != []
    ensures RunOk(desk, Step(desk, r, Tick(win, m, None)))
  {
    var key, t, r' := KeyAt(win, m), Now(desk, r, win, m), Step(desk, r, Tick(win, m, None));
    assert t.effects[..|t.effects|] == t.effects;
    assert WatchOk(r, key);
    ActedPrefix(desk, r, win, m, |t.effects|);
    LogJustifies(desk, r, win, m, |t.effects|);
    TickSettles(r.cfg, desk, r.eng.states[key], key in r.eng.submitted, win, m, r.world);
    ActsOnFreshWinner(r.cfg, desk, r.eng.states[key], key in r.eng.submitted, win, m, r.world);
    forall k | k in r'.eng.states
      ensures WatchOk(r', k)
    {
      if k != key { assert WatchOk(r, k); }
    }
  }

  lemma StepOk(desk: Desk, r: Run, e: Event)
    requires DeskOk(desk) && RunOk(desk, r) && Enabled(r, e)
    ensures RunOk(desk, Step(desk, r, e))
  {
    match e
    case Boot(slug, offsets) => BootOk(desk, r, slug, offsets);
    case Drop(slug) =>
      forall key | key in Dropping(r.eng, slug).states
        ensures WatchOk(Step(desk, r, e), key)
      {
        assert WatchOk(r, key);
      }
    case Crash(_) =>
    case Elsewhere(w) => ElsewhereOk(desk, r, w);
    case Tick(win, m, cut) =>
      if cut.Some? && cut.value < |Now(desk, r, win, m).effects| {
        CutTickOk(desk, r, win, m, cut.value);
      } else if Now(desk, r, win, m).effects == [] {
        QuietTickOk(desk, r, win, m);
      } else {
        ActingTickOk(desk, r, win, m);
      }
  }

  ghost predicate Possible(desk: Desk, r: Run, run: seq<Event>)
    requires r.cfg.tick > 0.0
    decreases |run|
  {
    run == [] || (Enabled(r, run[0]) && Possible(desk, Step(desk, r, run[0]), run[1..]))
  }

  ghost function Final(desk: Desk, r: Run, run: seq<Event>): Run
    requires r.cfg.tick > 0.0 && Possible(desk, r, run)
    decreases |run|
  {
    if run == [] then r else Final(desk, Step(desk, r, run[0]), run[1..])
  }

  lemma {:induction false} RunKeeps(desk: Desk, r: Run, run: seq<Event>)
    requires DeskOk(desk) && RunOk(desk, r) && Possible(desk, r, run)
    ensures RunOk(desk, Final(desk, r, run))
    ensures forall k | k in r.world.intents ::
              k in Final(desk, r, run).world.intents && Final(desk, r, run).world.intents[k] == r.world.intents[k]
    decreases |run|
  {
    if run != [] {
      var next := Step(desk, r, run[0]);
      StepOk(desk, r, run[0]);
      StepKeepsIntents(desk, r, run[0]);
      RunKeeps(desk, next, run[1..]);
    }
  }

  lemma StepKeepsIntents(desk: Desk, r: Run, e: Event)
    requires DeskOk(desk) && RunOk(desk, r) && Enabled(r, e)
    ensures forall k | k in r.world.intents ::
              k in Step(desk, r, e).world.intents && Step(desk, r, e).world.intents[k] == r.world.intents[k]
  {
    match e
    case Tick(win, m, cut) =>
      var es := Now(desk, r, win, m).effects;
      var n := if cut.Some? && cut.value < |es| then cut.value else |es|;
      assert es[..|es|] == es && es[..0] == [];
      if n > 0 { ActedPrefix(desk, r, win, m, n); } else { assert ApplyAll(r.world, []) == r.world; }
    case _ =>
  }

  function Start(cfg: Config): Run {
    Run(World(map[], map[], map[], [], {}), cfg, Engine(map[], {}), [], map[], map[])
  }

  /**
   In every run, whatever configurations its processes came up with, every first MAJORITY order comes
   from a persisted intent: same side, same price, its size the step-floor of the intent's. And the
   intent's side strictly won one complete read, taken by a later tick of its window than the one that
   fired the entry and at most two seconds after it, with every gate passed and the price on the grid
   and in the band.
   */
  lemma EveryMajorityOrderIsJustified(cfg: Config, desk: Desk, run: seq<Event>, id: Ids.OrderId)
    requires cfg.tick > 0.0 && DeskOk(desk) && Possible(desk, Start(cfg), run)
    requires id in Final(desk, Start(cfg), run).world.rows && id.chain.engine == MAJORITY_ENGINE && id.generation == 0
    ensures var r := Final(desk, Start(cfg), run);
            var k := KeyOf(id.chain.slug, id.chain.offset);
            && k in r.world.intents && k in r.log
            && FromIntent(desk, r.world.rows[id], r.world.intents[k])
            && Justified(r.turns, k, r.world.intents[k], r.log[k])
  {
    RunKeeps(desk, Start(cfg), run);
  }

  /**
   Over any run, with crashes and restarts under whatever configuration, a market's window gets one
   intent and keeps it, and wherever the engine holds that window its locked side is the intent's and
   it can send nothing more.
   */
  lemma {:induction false} OneIntentForGood(cfg: Config, desk: Desk, run: seq<Event>, more: seq<Event>, slug: string, offset: nat)
    requires cfg.tick > 0.0 && DeskOk(desk) && Possible(desk, Start(cfg), run)
    requires var early := Final(desk, Start(cfg), run);
             early.cfg.tick > 0.0 && Possible(desk, early, more) && KeyOf(slug, offset) in early.world.intents
    ensures var k, early := KeyOf(slug, offset), Final(desk, Start(cfg), run);
            var late := Final(desk, early, more);
            && late.cfg.tick > 0.0
            && k in late.world.intents && late.world.intents[k] == early.world.intents[k]
            && ((slug, offset) in late.eng.states ==>
                  && late.eng.states[(slug, offset)].side == Some(early.world.intents[k].direction)
                  && forall win: Window, m: Moment | win.offset == offset && m.market.slug == slug :: Now(desk, late, win, m).effects == [])
  {
    RunKeeps(desk, Start(cfg), run);
    RunKeeps(desk, Final(desk, Start(cfg), run), more);
    var late := Final(desk, Final(desk, Start(cfg), run), more);
    if (slug, offset) in late.eng.states {
      assert WatchOk(late, (slug, offset));
    }
  }

  // ── the rest of the loop is permitted ─────────────────────────────────────

  /** Effects that write no intent and start no chain. */
  predicate Quiet(rows: map<Ids.OrderId, Row>, es: seq<Effect>) {
    forall i | 0 <= i < |es| :: !es[i].SaveIntent? && (es[i].SaveRow? ==> es[i].row.id in rows || es[i].row.id.generation > 0)
  }

  lemma {:induction false} QuietLeaves(w: World, es: seq<Effect>)
    requires Quiet(w.rows, es)
    ensures var w' := ApplyAll(w, es);
            w'.intents == w.intents && forall id | id in w'.rows && id !in w.rows :: id.generation > 0
    decreases |es|
  {
    if es != [] {
      QuietLeaves(Apply(w, es[0]), es[1..]);
    }
  }

  lemma {:induction false} RepriceQuiet(w: World, l: Chains.Limits, patience: nat, passes: map<Ids.ChainKey, nat>, ids: seq<Ids.OrderId>, v: Ids.OrderId -> Reprice.Venue)
    requires forall id | id in ids :: id in w.rows && w.rows[id].id == id
    ensures Quiet(w.rows, Reprice.RepriceAll(w, l, patience, passes, ids, v).0)
    decreases |ids|
  {
    if ids != [] {
      RepriceQuiet(w, l, patience, passes, ids[..|ids| - 1], v);
    }
  }

  lemma {:induction false} SweepQuiet(w: World, ids: seq<Ids.OrderId>, scope: Option<string>, a: Sweep.Replies)
    requires forall id | id in ids :: id in w.rows && w.rows[id].id == id
    ensures Quiet(w.rows, Sweep.SweepEffects(w, ids, scope, a))
    decreases |ids|
  {
    if ids != [] {
      SweepQuiet(w, ids[..|ids| - 1], scope, a);
    }
  }

  lemma {:induction false} SaveEachQuiet(w: World, ids: seq<Ids.OrderId>, rule: Reconcile.Rule)
    requires Keyed(w.rows) && Reconcile.Lawful(w, ids, rule)
    ensures Quiet(w.rows, Reconcile.SaveEach(w, ids, rule))
    decreases |ids|
  {
    if ids != [] {
      SaveEachQuiet(w, ids[..|ids| - 1], rule);
    }
  }

  lemma {:induction false} IngestQuiet(w: World, slug: string, batch: seq<Fill>)
    requires Keyed(w.rows)
    ensures Quiet(w.rows, Fills.IngestAll(w, slug, batch).effects)
    decreases |batch|
  {
    if batch != [] && !Fills.IngestOne(w, slug, batch[0]).raised {
      var s := Fills.IngestOne(w, slug, batch[0]);
      Fills.IngestOneApplied(w, slug, batch[0]);
      IngestQuiet(ApplyAll(w, s.effects), slug, batch[1..]);
    }
  }

  /** Everything the order-lifecycle runs do, short of a submission, is permitted here, crashes included. */
  lemma LifecycleIsPermitted(s: Runs.State, c: Runs.Config, t: Runs.Turn)
    requires Chains.Inv(s.world, c.limits) && Runs.Enabled(s, c, t.event) && Runs.Listed(s, t.event) && !t.event.Submission?
    ensures Permitted(s.world, Runs.Step(s, c, t).world)
  {
    var es := Runs.EffectsOf(s, c, t.event);
    Runs.EventSound(s, c, t.event);
    var n := if t.cut.Some? && t.cut.value < |es| then t.cut.value else |es|;
    assert es[..|es|] == es;
    Chains.SafeAtEveryCrash(s.world, c.limits, es, Runs.ByFill(t.event), n);
    match t.event {
      case RepricePass(slug, engine, ids, v) =>
        assert forall id | id in ids :: id in Reprice.OpenIds(s.world, c.limits, slug, engine);
        RepriceQuiet(s.world, c.limits, c.patience, s.passes, ids, v);
      case SweepPass(slug, ids, scope, replies) => SweepQuiet(s.world, ids, scope, replies);
      case FillBatch(slug, batch) => IngestQuiet(s.world, slug, batch);
      case Reconciliation(slug, ids, scope, listing) =>
        Reconcile.ReconcileLawful(s.world, c.limits, slug, ids, scope, listing);
        SaveEachQuiet(s.world, ids, Reconcile.ReconcileRule(scope, listing));
      case Expiry(slug, ids) =>
        Reconcile.ExpireLawful(s.world, c.limits, slug, ids);
        SaveEachQuiet(s.world, ids, Reconcile.ExpireRule());
    }
    assert Quiet(s.world.rows, es[..n]);
    QuietLeaves(s.world, es[..n]);
  }
}
